/** B's live stream over whole runs. */
module SessionStream {
  import opened Wrappers
  import opened LoginHandoff
  import opened SessionModel
  import opened SessionProofs
  import opened SessionTheorems

  // What the stream is, and that nothing follows a gap in it.

  // ---------------------------------------------------------------- what a step adds to the history

  // Notes were added, none of which starts a stream anew.
  predicate Continues(before: seq<Note>, after: seq<Note>) {
    && before <= after
    && forall i :: |before| <= i < |after| ==> !after[i].Begun? && !after[i].Bounded? && !after[i].Direct?
  }

  predicate Resets(before: seq<Note>, after: seq<Note>) {
    |after| == |before| + 1 && before <= after
        && (after[|before|].Begun? || after[|before|].Bounded? || after[|before|].Direct?)
  }

  lemma ResetsAppend(log: seq<Note>, n: Note)
    requires n.Begun? || n.Bounded? || n.Direct?
    ensures Resets(log, log + [n])
  {
  }

  lemma ContinuesRefl(log: seq<Note>)
    ensures Continues(log, log)
  {
  }

  lemma ContinuesAppend(before: seq<Note>, after: seq<Note>, n: Note)
    requires Continues(before, after) && !n.Begun? && !n.Bounded? && !n.Direct?
    ensures Continues(before, after + [n])
  {
  }

  lemma ContinuesBroken(log: seq<Note>)
    ensures Continues(log, log + [Broken]) && Continues(log, log + [Broken] + [Broken])
    ensures Continues(log, log + [Broken] + [Broken] + [Broken])
  {
    hide Continues;
    ContinuesRefl(log);
    ContinuesAppend(log, log, Broken);
    ContinuesAppend(log, log + [Broken], Broken);
    ContinuesAppend(log, log + [Broken] + [Broken], Broken);
  }

  lemma {:induction false} DeliverContinues(base: seq<Note>, s: State, c: Chan, leaves: seq<Packet>)
    requires (forall l <- leaves :: l.Leaf?) && Continues(base, s.log)
    ensures Continues(base, Deliver(s, c, leaves).log)
    decreases |leaves|
  {
    hide Continues;
    if leaves != [] {
      ContinuesAppend(base, s.log, LiveWrite(c, leaves[0].id));
      DeliverContinues(base, DeliverLeaf(s, c, leaves[0]), c, leaves[1..]);
    }
  }

  lemma ForwardContinues(base: seq<Note>, s: State, p: Packet)
    requires Continues(base, s.log)
    ensures Continues(base, ForwardLive(s, p).log)
  {
    hide Continues, Reached, Deliver;
    if !s.stopping && s.channel.Some? {
      ReachedLeaves(p);
      DeliverContinues(base, s, s.channel.value, Reached(p));
    }
  }

  lemma {:induction false} DrainContinues(base: seq<Note>, s: State, held: seq<Held>, stopAfter: nat)
    requires Continues(base, s.log)
    ensures Continues(base, Drain(s, held, stopAfter).log)
    decreases |held|
  {
    hide Continues, ForwardLive;
    if held != [] {
      var t := if stopAfter == 0 then s.(stopping := true) else s;
      ForwardContinues(base, t, held[0].packet);
      var u := ForwardLive(t, held[0].packet);
      DrainContinues(base, u.(deleted := u.deleted + [held[0].ref]), held[1..],
                     if stopAfter == 0 then 0 else stopAfter - 1);
    }
  }

  function PacketsOf(e: Event): seq<Packet> {
    if e.EvFromA? && e.game then [e.p] else []
  }

  // A step either carries the stream on or starts it anew.
  predicate Carried(s: State, t: State, arrived: seq<Packet>) {
    || (Continues(s.log, t.log) && t.since == s.since + arrived)
    || (Resets(s.log, t.log) && t.since == [] && arrived == [])
  }

  lemma CarriedGrows(s: State, t: State, arrived: seq<Packet>)
    requires Carried(s, t, arrived)
    ensures s.log <= t.log && !(Continues(s.log, t.log) && Resets(s.log, t.log))
  {
  }

  lemma CarriedFromA(s: State, p: Packet, game: bool, refOk: bool)
    ensures Carried(s, FromA(s, p, game, refOk), if game then [p] else [])
  {
    hide Continues, Resets, ForwardLive, Refs;
    var t := s.(since := s.since + [p]);
    NothingMore(s.since);
    ContinuesRefl(s.log);
    ContinuesBroken(s.log);
    ForwardContinues(s.log, t, p);
    ForwardSameBut(t, p);
  }

  lemma CarriedFinishLogin(s: State, stopAfter: nat)
    ensures Carried(s, FinishLogin(s, stopAfter), [])
  {
    hide Continues, Drain, Refs;
    NothingMore(s.since);
    ContinuesRefl(s.log);
    ContinuesBroken(s.log);
    if s.login.Tail? && s.midSession && !s.stopping && s.handoff == Capturing {
      var t := With(s.(handoff := AwaitingAck, client := AwaitReady, pending := [], login := NoLogin), Sent(s.login.c));
      ContinuesAppend(s.log, s.log, Sent(s.login.c));
      DrainContinues(s.log, t, s.pending, stopAfter);
      DrainFrame(t, s.pending, stopAfter);
    }
  }

  lemma {:induction false} CarriedFromB(s: State, c: Chan, m: Message, ackBound: bool)
    ensures Carried(s, FromB(s, c, m, ackBound), [])
  {
    hide Permitted, Continues, Resets;
    NothingMore(s.since);
    ContinuesRefl(s.log);
    ContinuesAppend(s.log, s.log, LocalAck(c));
    ContinuesAppend(s.log, s.log, Routed(c, m));
  }

  lemma CarriedLogin(s: State, ok: bool)
    ensures Carried(s, BeginSync(s, ok), []) && Carried(s, WriteSnapshot(s, ok), []) && Carried(s, Boundary(s), [])
  {
    hide Refs, Continues, Resets;
    NothingMore(s.since);
    ContinuesRefl(s.log);
    ContinuesBroken(s.log);
    if s.login.Reconstruct? {
      ResetsAppend(s.log, Begun(s.login.c, s.job + 1));
    }
    if s.login.Writing? {
      ContinuesAppend(s.log, s.log, SnapshotWritten(s.login.c, s.job));
    }
    if s.running.Some? {
      ResetsAppend(s.log, Bounded(s.running.value));
    }
  }

  lemma CarriedRelease(s: State, c: Chan)
    ensures Carried(s, Inactive(s, c), []) && Carried(s, StopDone(s), [])
  {
    hide Refs, Resets;
    NothingMore(s.since);
  }

  lemma CarriedTimeout(s: State, expired: bool)
    ensures Carried(s, CheckTimeout(s, expired), [])
  {
    hide Refs, Resets, Continues;
    NothingMore(s.since);
    ContinuesRefl(s.log);
    ContinuesBroken(s.log);
  }

  lemma CarriedSame(s: State, t: State)
    ensures SameHistory(s, t) ==> Carried(s, t, [])
  {
    NothingMore(s.since);
  }

  lemma CarriedStep(s: State, e: Event, ackBound: bool)
    ensures Carried(s, Step(s, e, ackBound), PacketsOf(e))
  {
    hide Carried, FromA, Intention, Hello, ReadMid, BeginSync, Captured, WriteSnapshot, FinishLogin, FromB, Inactive,
         RunnerStart, Boundary, RunnerEnd, CheckTimeout, RequestStop, StopDone, Start, SetMid, SameHistory;
    CarriedSame(s, Step(s, e, ackBound));
    match e
    case EvFromA(p, game, refOk) => CarriedFromA(s, p, game, refOk);
    case EvIntention(c, refOk) => SilentLogin(s, c, refOk);
    case EvHello(c) => SilentLogin(s, c, false);
    case EvReadMid => SilentLogin(s, 0, false);
    case EvBeginSync(ok) => CarriedLogin(s, ok);
    case EvCaptured(ok) => SilentLogin(s, 0, ok);
    case EvWriteSnapshot(ok) => CarriedLogin(s, ok);
    case EvFinishLogin(stopAfter) => CarriedFinishLogin(s, stopAfter);
    case EvFromB(c, m) => CarriedFromB(s, c, m, ackBound);
    case EvInactive(c) => CarriedRelease(s, c);
    case EvRunnerStart(j) => SilentControl(s, j, false);
    case EvBoundary => CarriedLogin(s, false);
    case EvRunnerEnd(ok) => SilentControl(s, 0, ok);
    case EvTimeout(expired) => CarriedTimeout(s, expired);
    case EvRequestStop => SilentControl(s, 0, false);
    case EvStopDone => CarriedRelease(s, 0);
    case EvStart => SilentControl(s, 0, false);
    case EvSetMid => SilentControl(s, 0, false);
  }

  // ---------------------------------------------------------------- the live stream

  function Arrived(es: seq<Event>): seq<Packet>
    decreases |es|
  {
    if es == [] then [] else Arrived(es[..|es| - 1]) + PacketsOf(es[|es| - 1])
  }

  // The number of events up to the last one at which the stream starts: the last begin,
  // snapshot boundary or direct start.
  function LastStart(es: seq<Event>, ackBound: bool): (n: nat)
    ensures n <= |es|
    decreases |es|
  {
    if es == [] then 0
    else
      var front := es[..|es| - 1];
      if Resets(Run(INITIAL, front, ackBound).log, Run(INITIAL, es, ackBound).log) then |es|
      else LastStart(front, ackBound)
  }

  lemma {:induction false} SinceIsSuffix(es: seq<Event>, ackBound: bool)
    ensures Run(INITIAL, es, ackBound).since == Arrived(es[LastStart(es, ackBound)..])
    decreases |es|
  {
    hide Run, Step, Continues;
    if es == [] {
      var none := RunNone();
    } else {
      var front, e := es[..|es| - 1], es[|es| - 1];
      var n := LastStart(es, ackBound);
      assert es == front + [e];
      RunSnoc(INITIAL, front, e, ackBound);
      SinceIsSuffix(front, ackBound);
      CarriedStep(Run(INITIAL, front, ackBound), e, ackBound);
      CarriedGrows(Run(INITIAL, front, ackBound), Run(INITIAL, es, ackBound), PacketsOf(e));
      if n == |es| {
        assert es[n..] == [];
      } else {
        assert es[n..] == front[n..] + [e];
        assert (front[n..] + [e])[..|es| - 1 - n] == front[n..];
      }
    }
  }

  // In every run B's live ids are a prefix of what A's packets since the last start are due to
  // give, in order, without gap or duplicate. Up to the first close or stop they are all of it.
  lemma {:induction false} LiveStreamContiguous(es: seq<Event>, ackBound: bool)
    ensures var s := Run(INITIAL, es, ackBound);
            var packets := Arrived(es[LastStart(es, ackBound)..]);
            && Live(s) <= Expected(packets)
            && ((s.client == AwaitReady || s.client == Play) && !s.closing && !s.stopping
               ==> Live(s) == Expected(packets))
  {
    hide Run, Live, Expected, Control, Jobs, Buffer;
    Reachable(es, ackBound);
    SinceIsSuffix(es, ackBound);
  }

  // ---------------------------------------------------------------- nothing follows a gap

  // A live packet of the running login was not buffered or not delivered.
  predicate Gap(s: State) {
    || (s.client == Syncing && Packets(s.pending) != s.since)
    || ((s.client == AwaitReady || s.client == Play) && Live(s) != Expected(s.since))
  }

  // B's stream has ended.
  predicate Cut(s: State) {
    s.closing || s.stopping || ProgressOf(s.log) == POut
  }

  // Another login has begun.
  predicate Restarted(before: seq<Note>, after: seq<Note>) {
    exists i :: |before| <= i < |after| && (after[i].Begun? || after[i].Direct?)
  }

  lemma GapCuts(s: State)
    requires Inv(s) && Gap(s)
    ensures Cut(s)
  {
    hide ProgressOf, LiveOf, SafeLog, Expected, Packets, Prefix, Jobs, Ledger;
  }

  // Progress and live ids do not change while no login is running.
  lemma {:induction false} OutStaysOut(before: seq<Note>, after: seq<Note>)
    requires SafeLog(after) && before <= after && ProgressOf(before) == POut && !Restarted(before, after)
    ensures ProgressOf(after) == POut && LiveOf(after) == LiveOf(before)
    decreases |after|
  {
    if |after| > |before| {
      var front := after[..|after| - 1];
      forall i | |before| <= i < |front| ensures !front[i].Begun? && !front[i].Direct? {
        assert front[i] == after[i];
      }
      OutStaysOut(before, front);
      assert !after[|after| - 1].Begun? && !after[|after| - 1].Direct?;
      NothingMore(LiveOf(front));
    } else {
      assert after == before;
    }
  }

  // The other way a stream ends: the channel is closing or the session is stopping.
  predicate Ended(s: State) {
    s.closing || s.stopping
  }

  // The stream stays ended, or the login is over, and nothing more was written.
  predicate StaysEnded(s: State, t: State) {
    || Restarted(s.log, t.log)
    || (Live(t) == Live(s) && (Ended(t) || ProgressOf(t.log) == POut))
  }

  lemma {:induction false} DeliverEnded(s: State, c: Chan, leaves: seq<Packet>)
    requires (forall l <- leaves :: l.Leaf?) && s.closing
    ensures Deliver(s, c, leaves) == s
    decreases |leaves|
  {
    if leaves != [] {
      DeliverEnded(s, c, leaves[1..]);
    }
  }

  lemma ForwardEnded(s: State, p: Packet)
    requires Ended(s)
    ensures ForwardLive(s, p) == s
  {
    hide Reached, Deliver;
    if !s.stopping && s.channel.Some? {
      ReachedLeaves(p);
      DeliverEnded(s, s.channel.value, Reached(p));
    }
  }

  lemma {:induction false} DrainEnded(s: State, held: seq<Held>, stopAfter: nat)
    requires Ended(s)
    ensures var t := Drain(s, held, stopAfter); Ended(t) && t.log == s.log
    decreases |held|
  {
    hide ForwardLive;
    if held != [] {
      var t := if stopAfter == 0 then s.(stopping := true) else s;
      ForwardEnded(t, held[0].packet);
      DrainEnded(t.(deleted := t.deleted + [held[0].ref]), held[1..], if stopAfter == 0 then 0 else stopAfter - 1);
    }
  }

  lemma EndedBroken(log: seq<Note>)
    ensures LiveOf(log + [Broken]) == LiveOf(log) && ProgressOf(log + [Broken]) == POut
    ensures LiveOf(log + [Broken] + [Broken]) == LiveOf(log) && ProgressOf(log + [Broken] + [Broken]) == POut
    ensures LiveOf(log + [Broken] + [Broken] + [Broken]) == LiveOf(log)
            && ProgressOf(log + [Broken] + [Broken] + [Broken]) == POut
  {
    hide LiveOf, ProgressOf, SafeLog;
    Appended(log, Broken);
    Appended(log + [Broken], Broken);
    Appended(log + [Broken] + [Broken], Broken);
  }

  lemma EndedFromA(s: State, p: Packet, game: bool, refOk: bool)
    requires Ended(s)
    ensures StaysEnded(s, FromA(s, p, game, refOk))
  {
    hide LiveOf, ProgressOf, Restarted, ForwardLive, Refs;
    EndedBroken(s.log);
    ForwardEnded(s.(since := s.since + [p]), p);
  }

  lemma EndedFinishLogin(s: State, stopAfter: nat)
    requires Ended(s)
    ensures StaysEnded(s, FinishLogin(s, stopAfter))
  {
    hide LiveOf, ProgressOf, SafeLog, Drain, Refs;
    EndedBroken(s.log);
    if s.login.Tail? {
      Appended(s.log, Sent(s.login.c));
      var t := With(s.(handoff := AwaitingAck, client := AwaitReady, pending := [], login := NoLogin), Sent(s.login.c));
      DrainEnded(t, s.pending, stopAfter);
      assert (s.log + [Direct(s.login.c)])[|s.log|].Direct?;
    }
  }

  lemma EndedSnapshot(s: State, ok: bool)
    requires Ended(s)
    ensures StaysEnded(s, BeginSync(s, ok)) && StaysEnded(s, WriteSnapshot(s, ok)) && StaysEnded(s, Boundary(s))
  {
    hide LiveOf, ProgressOf, SafeLog, Refs;
    EndedBroken(s.log);
    if s.login.Reconstruct? {
      assert (s.log + [Begun(s.login.c, s.job + 1)])[|s.log|].Begun?;
    }
    if s.login.Writing? {
      Appended(s.log, SnapshotWritten(s.login.c, s.job));
    }
    if s.running.Some? {
      Appended(s.log, Bounded(s.running.value));
    }
  }

  lemma {:induction false} EndedFromB(s: State, c: Chan, m: Message, ackBound: bool)
    requires Ended(s)
    ensures StaysEnded(s, FromB(s, c, m, ackBound))
  {
    hide Permitted, LiveOf, ProgressOf, SafeLog, Restarted;
    Appended(s.log, LocalAck(c));
    Appended(s.log, Routed(c, m));
  }

  lemma EndedRelease(s: State, c: Chan)
    requires Ended(s)
    ensures StaysEnded(s, Inactive(s, c)) && StaysEnded(s, StopDone(s))
  {
    hide LiveOf, ProgressOf, Restarted, Refs;
    EndedBroken(s.log);
  }

  lemma EndedTimeout(s: State, expired: bool)
    requires Ended(s)
    ensures StaysEnded(s, CheckTimeout(s, expired))
  {
    hide LiveOf, ProgressOf, Restarted, Refs;
    EndedBroken(s.log);
  }

  lemma EndedLogin(s: State, c: Chan, ok: bool)
    requires Inv(s) && Ended(s)
    ensures StaysEnded(s, Intention(s, c, ok)) && StaysEnded(s, Hello(s, c))
    ensures StaysEnded(s, ReadMid(s)) && StaysEnded(s, Captured(s, ok))
  {
    hide LiveOf, ProgressOf, SafeLog, Restarted, Jobs, Buffer, Stream;
  }

  lemma EndedControl(s: State, j: nat, ok: bool)
    requires Inv(s) && Ended(s)
    ensures StaysEnded(s, RequestStop(s)) && StaysEnded(s, Start(s)) && StaysEnded(s, SetMid(s))
    ensures StaysEnded(s, RunnerStart(s, j)) && StaysEnded(s, RunnerEnd(s, ok))
  {
    hide LiveOf, ProgressOf, SafeLog, Restarted, Jobs, Buffer, Stream;
  }

  lemma EndedStep(s: State, e: Event, ackBound: bool)
    requires Inv(s) && Ended(s)
    ensures StaysEnded(s, Step(s, e, ackBound))
  {
    hide Inv, Ended, StaysEnded, FromA, Intention, Hello, ReadMid, BeginSync, Captured, WriteSnapshot, FinishLogin,
         FromB, Inactive, RunnerStart, Boundary, RunnerEnd, CheckTimeout, RequestStop, StopDone, Start, SetMid;
    match e
    case EvFromA(p, game, refOk) => EndedFromA(s, p, game, refOk);
    case EvIntention(c, refOk) => EndedLogin(s, c, refOk);
    case EvHello(c) => EndedLogin(s, c, false);
    case EvReadMid => EndedLogin(s, 0, false);
    case EvBeginSync(ok) => EndedSnapshot(s, ok);
    case EvCaptured(ok) => EndedLogin(s, 0, ok);
    case EvWriteSnapshot(ok) => EndedSnapshot(s, ok);
    case EvFinishLogin(stopAfter) => EndedFinishLogin(s, stopAfter);
    case EvFromB(c, m) => EndedFromB(s, c, m, ackBound);
    case EvInactive(c) => EndedRelease(s, c);
    case EvRunnerStart(j) => EndedControl(s, j, false);
    case EvBoundary => EndedSnapshot(s, false);
    case EvRunnerEnd(ok) => EndedControl(s, 0, ok);
    case EvTimeout(expired) => EndedTimeout(s, expired);
    case EvRequestStop => EndedControl(s, 0, false);
    case EvStopDone => EndedRelease(s, 0);
    case EvStart => EndedControl(s, 0, false);
    case EvSetMid => EndedControl(s, 0, false);
  }

  lemma CutStep(s: State, e: Event, ackBound: bool)
    requires Inv(s) && Cut(s)
    ensures var t := Step(s, e, ackBound);
            s.log <= t.log && (Restarted(s.log, t.log) || (Cut(t) && Live(t) == Live(s)))
  {
    hide Step, Restarted, ProgressOf, SafeLog, LiveOf, Jobs, Buffer, Stream, Continues, Resets;
    var t := Step(s, e, ackBound);
    CarriedStep(s, e, ackBound);
    CarriedGrows(s, t, PacketsOf(e));
    KeepStep(s, e, ackBound);
    if Ended(s) {
      EndedStep(s, e, ackBound);
    } else if !Restarted(s.log, t.log) {
      OutStaysOut(s.log, t.log);
    }
  }

  lemma {:induction false} CutRun(s: State, es: seq<Event>, ackBound: bool)
    requires Inv(s) && Cut(s)
    ensures var t := Run(s, es, ackBound);
            s.log <= t.log && (Restarted(s.log, t.log) || (Cut(t) && Live(t) == Live(s)))
    decreases |es|
  {
    hide Inv, Step, Restarted, Cut, Live;
    if es != [] {
      var mid := Step(s, es[0], ackBound);
      var t := Run(mid, es[1..], ackBound);
      CutStep(s, es[0], ackBound);
      KeepStep(s, es[0], ackBound);
      if Restarted(s.log, mid.log) {
        LogGrows(mid, es[1..], ackBound);
        RestartedGrows(s.log, mid.log, t.log);
      } else {
        CutRun(mid, es[1..], ackBound);
        RestartedGrows(s.log, mid.log, t.log);
      }
    }
  }

  lemma RestartedGrows(l0: seq<Note>, l1: seq<Note>, l2: seq<Note>)
    requires l0 <= l1 <= l2
    ensures Restarted(l0, l1) || Restarted(l1, l2) ==> Restarted(l0, l2)
  {
    if Restarted(l0, l1) {
      var i :| |l0| <= i < |l1| && (l1[i].Begun? || l1[i].Direct?);
      assert l2[i] == l1[i];
    }
  }

  lemma {:induction false} LogGrows(s: State, es: seq<Event>, ackBound: bool)
    ensures s.log <= Run(s, es, ackBound).log
    decreases |es|
  {
    hide Step, Carried;
    if es != [] {
      CarriedStep(s, es[0], ackBound);
      CarriedGrows(s, Step(s, es[0], ackBound), PacketsOf(es[0]));
      LogGrows(Step(s, es[0], ackBound), es[1..], ackBound);
    }
  }

  lemma {:induction false} RunConcat(s: State, es: seq<Event>, fs: seq<Event>, ackBound: bool)
    ensures Run(s, es + fs, ackBound) == Run(Run(s, es, ackBound), fs, ackBound)
    decreases |es|
  {
    hide Step;
    if es == [] {
      assert [] + fs == fs;
    } else {
      RunConcat(Step(s, es[0], ackBound), es[1..], fs, ackBound);
      assert (es + fs)[1..] == es[1..] + fs;
    }
  }

  // Once a live packet is dropped, by overflow, failure, timeout, close or stop, B receives no
  // later one until another login begins.
  lemma NothingAfterGap(es: seq<Event>, fs: seq<Event>, ackBound: bool)
    requires Gap(Run(INITIAL, es, ackBound))
    ensures var s := Run(INITIAL, es, ackBound);
            var t := Run(INITIAL, es + fs, ackBound);
            Restarted(s.log, t.log) || Live(t) == Live(s)
  {
    hide Run, Inv, Gap, Restarted, Live, Cut;
    Reachable(es, ackBound);
    GapCuts(Run(INITIAL, es, ackBound));
    CutRun(Run(INITIAL, es, ackBound), fs, ackBound);
    RunConcat(INITIAL, es, fs, ackBound);
  }

  // ---------------------------------------------------------------- bundles

  // No iteration ends before a sub-packet that has something to forward.
  predicate Whole(p: Packet)
    decreases p
  {
    match p
    case Leaf(_, _) => true
    case Bundle(subs, reach) => WholeAll(subs, reach)
  }

  predicate WholeAll(ps: seq<Packet>, reach: nat)
    decreases ps
  {
    if ps == [] then true
    else if reach == 0 then LeavesOfAll(ps) == []
    else Whole(ps[0]) && WholeAll(ps[1..], reach - 1)
  }

  // All leaves of a packet reach B's stream exactly when no bundle iteration is cut short.
  lemma {:induction false} BundleComplete(p: Packet)
    ensures |Reached(p)| <= |Leaves(p)|
    ensures Reached(p) == Leaves(p) <==> Whole(p)
    ensures |Reached(p)| == |Leaves(p)| <==> Whole(p)
    decreases p, 0
  {
    if p.Bundle? {
      BundlesComplete(p.subs, p.reach);
    }
  }

  lemma {:induction false} BundlesComplete(ps: seq<Packet>, reach: nat)
    ensures |ReachedOfAll(ps, reach)| <= |LeavesOfAll(ps)|
    ensures ReachedOfAll(ps, reach) == LeavesOfAll(ps) <==> WholeAll(ps, reach)
    ensures |ReachedOfAll(ps, reach)| == |LeavesOfAll(ps)| <==> WholeAll(ps, reach)
    decreases ps, 0
  {
    if ps != [] && reach > 0 {
      BundleComplete(ps[0]);
      BundlesComplete(ps[1..], reach - 1);
    }
  }

  // An iterator that throws loses leaves silently: the channel stays open.
  lemma BundleLoss(s: State)
    ensures var p := Bundle([Leaf(1, Written)], 0);
            Leaves(p) == [Leaf(1, Written)] && ForwardLive(s, p) == s
  {
    var p := Bundle([Leaf(1, Written)], 0);
    assert LeavesOfAll(p.subs[1..]) == [];
    assert Leaves(p.subs[0]) == [Leaf(1, Written)];
    assert Reached(p) == [];
  }

  // ---------------------------------------------------------------- one whole handover

  lemma UntilBoundary() returns (es: seq<Event>, s: State)
    ensures s == Run(INITIAL, es, true) && s.login == Waiting(0) && s.handoff == Capturing && s.client == Syncing
    ensures s.channel == Some(0) && s.midSession && !s.stopping && !s.closing && s.bounded && s.running == Some(1)
            && s.job == 1
    ensures s.pending == [] && s.nextRef == 1 && s.log == [Begun(0, 1), Bounded(1)]
  {
    hide Run;
    s := RunNone();
    es := [];
    es, s := Then(es, s, EvStart, true);
    es, s := Then(es, s, EvSetMid, true);
    es, s := Then(es, s, EvIntention(0, true), true);
    assert s == INITIAL.(stopping := false, midSession := true, channel := Some(0), client := AwaitLogin);
    es, s := Then(es, s, EvHello(0), true);
    es, s := Then(es, s, EvReadMid, true);
    assert s == INITIAL.(stopping := false, midSession := true, channel := Some(0), client := AwaitLogin,
           login := Reconstruct(0));
    es, s := UntilBegun(es, s);
    es, s := Then(es, s, EvFromA(Leaf(1, Written), true, true), true);
    assert s.pending == [Held(0, Leaf(1, Written))] && s.nextRef == 1 && s.login == Waiting(0) && s.queued == {1};
    es, s := Then(es, s, EvRunnerStart(1), true);
    assert s.pending == [Held(0, Leaf(1, Written))] && s.nextRef == 1 && s.login == Waiting(0) && s.running == Some(1);
    es, s := Then(es, s, EvBoundary, true);
  }

  lemma UntilBegun(es0: seq<Event>, s0: State) returns (es: seq<Event>, s: State)
    requires Run(INITIAL, es0, true) == s0
    requires s0 == INITIAL.(stopping := false, midSession := true, channel := Some(0), client := AwaitLogin,
             login := Reconstruct(0))
    ensures s == Run(INITIAL, es, true) && s.login == Waiting(0) && s.handoff == Capturing && s.client == Syncing
    ensures s.channel == Some(0) && s.midSession && !s.stopping && !s.closing && !s.bounded && s.running == None
            && s.job == 1
    ensures s.pending == [] && s.nextRef == 0 && s.queued == {1} && s.log == [Begun(0, 1)]
  {
    hide Run;
    es, s := Then(es0, s0, EvBeginSync(true), true);
  }

  // The handover can complete: A's packet 1 arrives before the boundary and is left to the
  // snapshot, packet 2 after it and is the first live one; then B's input reaches A.
  lemma HandoverCompletes(name: string) returns (es: seq<Event>)
    requires Permitted(Input(3, name))
    ensures var s := Run(INITIAL, es, true);
            s.client == Play && s.handoff == Active && s.pending == []
            && s.log == [Begun(0, 1), Bounded(1), SnapshotWritten(0, 1), Sent(0), LiveWrite(0, 2), LocalAck(0),
               Routed(0, Input(3, name))]
  {
    hide Permitted, Run;
    var s;
    es, s := UntilBoundary();
    es, s := Then(es, s, EvFromA(Leaf(2, Written), true, true), true);
    assert s.pending == [Held(1, Leaf(2, Written))] && s.login == Waiting(0) && s.bounded && s.running == Some(1);
    es, s := Then(es, s, EvRunnerEnd(true), true);
    assert s.captured && s.pending == [Held(1, Leaf(2, Written))] && s.login == Waiting(0);
    es, s := Then(es, s, EvCaptured(true), true);
    assert s.pending == [Held(1, Leaf(2, Written))] && s.login == Writing(0);
    es, s := Then(es, s, EvWriteSnapshot(true), true);
    assert s.pending == [Held(1, Leaf(2, Written))] && s.login == Tail(0, true)
           && s.log == [Begun(0, 1), Bounded(1), SnapshotWritten(0, 1)];
    es, s := DrainTwo(es, s);
    es, s := Then(es, s, EvFromB(0, TeleportAck(TELEPORT_ID)), true);
    assert s.client == Play && s.handoff == Active && s.channel == Some(0) && s.login == NoLogin && s.pending == [];
    es, s := Then(es, s, EvFromB(0, Input(3, name)), true);
  }

  lemma DrainTwo(es0: seq<Event>, s0: State) returns (es: seq<Event>, s: State)
    requires Run(INITIAL, es0, true) == s0
    requires s0.pending == [Held(1, Leaf(2, Written))] && s0.login == Tail(0, true) && s0.midSession && !s0.stopping
             && !s0.closing
    requires s0.handoff == Capturing && s0.channel == Some(0)
             && s0.log == [Begun(0, 1), Bounded(1), SnapshotWritten(0, 1)]
    ensures s == Run(INITIAL, es, true) && s.client == AwaitReady && s.handoff == AwaitingAck && s.pending == []
    ensures s.channel == s0.channel && s.login == NoLogin
    ensures s.log == [Begun(0, 1), Bounded(1), SnapshotWritten(0, 1), Sent(0), LiveWrite(0, 2)]
  {
    hide Run, Drain;
    es, s := Then(es0, s0, EvFinishLogin(9), true);
    var t := With(s0.(handoff := AwaitingAck, client := AwaitReady, pending := [], login := NoLogin), Sent(0));
    DrainLast(t, Held(1, Leaf(2, Written)));
  }

  lemma DrainLast(t: State, h: Held)
    requires h.packet.Leaf?
    ensures var u := ForwardLive(t, h.packet);
            Drain(t, [h], 9) == u.(deleted := u.deleted + [h.ref])
    ensures !t.stopping && t.channel.Some? ==> ForwardLive(t, h.packet) == DeliverLeaf(t, t.channel.value, h.packet)
  {
    assert [h][1..] == [];
    assert [h.packet][1..] == [];
    if t.channel.Some? {
      assert Deliver(t, t.channel.value, [h.packet]) == DeliverLeaf(t, t.channel.value, h.packet);
    }
  }
}
