/** The buffer of live packets over whole runs: its bound, when it can hold something, and what
    becomes of each reference made for it. */
module SessionBuffer {
  import opened Wrappers
  import opened LoginHandoff
  import opened References
  import opened SessionModel
  import opened SessionProofs
  import opened SessionTheorems

  // ---------------------------------------------------------------- when it can hold something

  predicate HeldWhileSyncing(s: State) {
    s.pending != [] ==> s.client == Syncing && s.handoff == Capturing
  }

  // An intention is the first packet of its channel.
  predicate OneIntention(es: seq<Event>) {
    forall i, j :: 0 <= i < j < |es| && es[i].EvIntention? && es[j].EvIntention? ==> es[i].c != es[j].c
  }

  predicate Came(es: seq<Event>, c: Chan) {
    exists i :: 0 <= i < |es| && es[i].EvIntention? && es[i].c == c
  }

  // The client channel is kept, dropped, or the one of the intention.
  predicate ChannelFrom(s: State, t: State, e: Event) {
    t.channel == s.channel || t.channel.None? || (e.EvIntention? && t.channel == Some(e.c))
  }

  // An intention on the client channel while something is held.
  predicate Disturbs(s: State, e: Event) {
    e.EvIntention? && s.channel == Some(e.c) && !Busy(s, e.c) && s.pending != []
  }

  lemma HeldFromA(s: State, p: Packet, game: bool, refOk: bool)
    requires Inv(s) && HeldWhileSyncing(s)
    ensures var t := FromA(s, p, game, refOk); HeldWhileSyncing(t) && t.channel == s.channel
  {
    hide Inv, ForwardLive, Refs;
    ForwardSameBut(s.(since := s.since + [p]), p);
  }

  lemma HeldFinishLogin(s: State, stopAfter: nat)
    requires Inv(s) && HeldWhileSyncing(s)
    ensures var t := FinishLogin(s, stopAfter); HeldWhileSyncing(t) && t.channel == s.channel
  {
    hide Drain, Refs, ProgressOf, SafeLog, Jobs, Stream;
    if s.login.Tail? {
      DrainFrame(With(s.(handoff := AwaitingAck, client := AwaitReady, pending := [], login := NoLogin),
          Sent(s.login.c)),
                 s.pending, stopAfter);
    }
  }

  lemma HeldLogin(s: State, c: Chan, ok: bool)
    requires Inv(s) && HeldWhileSyncing(s)
    ensures HeldWhileSyncing(Intention(s, c, ok)) <==> !Disturbs(s, EvIntention(c, ok))
    ensures HeldWhileSyncing(Hello(s, c)) && HeldWhileSyncing(ReadMid(s))
    ensures HeldWhileSyncing(Captured(s, ok)) && HeldWhileSyncing(BeginSync(s, ok))
            && HeldWhileSyncing(WriteSnapshot(s, ok))
  {
    hide Refs, ProgressOf, SafeLog, Jobs, Stream;
  }

  lemma HeldRelease(s: State, c: Chan, expired: bool)
    ensures HeldWhileSyncing(s) ==> HeldWhileSyncing(Inactive(s, c)) && HeldWhileSyncing(Boundary(s))
    ensures HeldWhileSyncing(s) ==> HeldWhileSyncing(CheckTimeout(s, expired)) && HeldWhileSyncing(StopDone(s))
  {
    hide Refs;
  }

  lemma HeldFromB(s: State, c: Chan, m: Message, ackBound: bool)
    requires Inv(s) && HeldWhileSyncing(s)
    ensures HeldWhileSyncing(FromB(s, c, m, ackBound))
  {
    hide Permitted, Refs, ProgressOf, SafeLog, Jobs, Stream;
  }

  // A step keeps it if and only if it is not an intention on the client channel that meets
  // something held.
  lemma HeldStep(s: State, e: Event, ackBound: bool)
    requires Inv(s) && HeldWhileSyncing(s)
    ensures HeldWhileSyncing(Step(s, e, ackBound)) <==> !Disturbs(s, e)
  {
    hide Inv, ForwardLive, FinishLogin, FromA, Intention, Hello, ReadMid, Captured, BeginSync, WriteSnapshot, FromB,
         Inactive, Boundary, CheckTimeout, StopDone, HeldWhileSyncing;
    match e
    case EvFromA(p, game, refOk) => HeldFromA(s, p, game, refOk);
    case EvIntention(c, refOk) => HeldLogin(s, c, refOk);
    case EvHello(c) => HeldLogin(s, c, false);
    case EvReadMid => HeldLogin(s, 0, false);
    case EvBeginSync(ok) => HeldLogin(s, 0, ok);
    case EvCaptured(ok) => HeldLogin(s, 0, ok);
    case EvWriteSnapshot(ok) => HeldLogin(s, 0, ok);
    case EvFinishLogin(stopAfter) => HeldFinishLogin(s, stopAfter);
    case EvFromB(c, m) => HeldFromB(s, c, m, ackBound);
    case EvInactive(c) => HeldRelease(s, c, false);
    case EvBoundary => HeldRelease(s, 0, false);
    case EvTimeout(expired) => HeldRelease(s, 0, expired);
    case EvStopDone => HeldRelease(s, 0, false);
    case _ => HeldSame(s, Step(s, e, ackBound));
  }

  lemma HeldSame(s: State, t: State)
    requires t.pending == s.pending && t.client == s.client && t.handoff == s.handoff
    ensures HeldWhileSyncing(t) == HeldWhileSyncing(s)
  {
  }

  lemma ChannelLogin(s: State, ok: bool)
    ensures BeginSync(s, ok).channel == Captured(s, ok).channel == WriteSnapshot(s, ok).channel == s.channel
  {
    hide Refs;
  }

  lemma ChannelFromB(s: State, c: Chan, m: Message, ackBound: bool)
    ensures FromB(s, c, m, ackBound).channel == s.channel
  {
    hide Permitted;
  }

  lemma ChannelHandoff(s: State, expired: bool)
    ensures Boundary(s).channel == CheckTimeout(s, expired).channel == s.channel
  {
    hide Refs;
  }

  lemma ChannelStep(s: State, e: Event, ackBound: bool)
    requires Inv(s) && HeldWhileSyncing(s)
    ensures ChannelFrom(s, Step(s, e, ackBound), e)
  {
    hide Inv, FromA, FinishLogin, Refs, HeldWhileSyncing, BeginSync, Captured, WriteSnapshot, FromB, Boundary,
         CheckTimeout;
    match e
    case EvFromA(p, game, refOk) => HeldFromA(s, p, game, refOk);
    case EvFinishLogin(stopAfter) => HeldFinishLogin(s, stopAfter);
    case EvBeginSync(ok) => ChannelLogin(s, ok);
    case EvCaptured(ok) => ChannelLogin(s, ok);
    case EvWriteSnapshot(ok) => ChannelLogin(s, ok);
    case EvFromB(c, m) => ChannelFromB(s, c, m, ackBound);
    case EvBoundary => ChannelHandoff(s, false);
    case EvTimeout(expired) => ChannelHandoff(s, expired);
    case _ =>
  }

  lemma {:induction false} HeldRun(es: seq<Event>, ackBound: bool)
    requires OneIntention(es)
    ensures var s := Run(INITIAL, es, ackBound);
            HeldWhileSyncing(s) && (s.channel.Some? ==> Came(es, s.channel.value))
    decreases |es|
  {
    hide Run, Step, Inv, HeldWhileSyncing;
    if es == [] {
      var none := RunNone();
      HeldSame(INITIAL, none);
      HeldInitial();
    } else {
      var front, e := es[..|es| - 1], es[|es| - 1];
      assert es == front + [e];
      HeldRun(front, ackBound);
      var s := Run(INITIAL, front, ackBound);
      Reachable(front, ackBound);
      RunSnoc(INITIAL, front, e, ackBound);
      forall c | Came(front, c) ensures Came(es, c) {
        var i :| 0 <= i < |front| && front[i].EvIntention? && front[i].c == c;
        assert es[i].EvIntention? && es[i].c == c;
      }
      assert e.EvIntention? ==> es[|es| - 1].EvIntention? && es[|es| - 1].c == e.c;
      HeldStep(s, e, ackBound);
      ChannelStep(s, e, ackBound);
    }
  }

  lemma HeldInitial()
    ensures HeldWhileSyncing(INITIAL)
  {
  }

  predicate HeldThroughout(s: State, es: seq<Event>, ackBound: bool)
    decreases |es|
  {
    HeldWhileSyncing(s) && (es != [] ==> HeldThroughout(Step(s, es[0], ackBound), es[1..], ackBound))
  }

  predicate Undisturbed(s: State, es: seq<Event>, ackBound: bool)
    decreases |es|
  {
    es != [] ==> !Disturbs(s, es[0]) && Undisturbed(Step(s, es[0], ackBound), es[1..], ackBound)
  }

  lemma {:induction false} HeldIffUndisturbed(s: State, es: seq<Event>, ackBound: bool)
    requires Inv(s) && HeldWhileSyncing(s)
    ensures HeldThroughout(s, es, ackBound) <==> Undisturbed(s, es, ackBound)
    decreases |es|
  {
    hide Inv, Step, HeldWhileSyncing, Disturbs;
    if es != [] {
      var t := Step(s, es[0], ackBound);
      HeldStep(s, es[0], ackBound);
      KeepStep(s, es[0], ackBound);
      if HeldWhileSyncing(t) {
        HeldIffUndisturbed(t, es[1..], ackBound);
      }
    }
  }

  // In every run the buffer stays within its bound and holds something only while capturing. All
  // along it holds something only while Syncing, if and only if no intention on the client channel
  // meets a filled buffer; so it does when intentions are first packets of their channels.
  lemma BufferBounded(es: seq<Event>, ackBound: bool)
    ensures var s := Run(INITIAL, es, ackBound);
            && |s.pending| <= MAX_PENDING
            && (s.pending != [] ==> s.handoff == Capturing && s.channel.Some?)
            && (s.pending != [] && OneIntention(es) ==> s.client == Syncing)
    ensures HeldThroughout(INITIAL, es, ackBound) <==> Undisturbed(INITIAL, es, ackBound)
  {
    hide Run, ProgressOf, SafeLog, Jobs, Stream, HeldThroughout, Undisturbed;
    Reachable(es, ackBound);
    InitialInv();
    HeldIffUndisturbed(INITIAL, es, ackBound);
    if OneIntention(es) {
      HeldRun(es, ackBound);
    }
  }

  // A begun login buffers a packet and its capture fails.
  lemma FailedCapture(es0: seq<Event>, s0: State) returns (es: seq<Event>, s: State)
    requires Run(INITIAL, es0, true) == s0
    requires s0.login.Reconstruct? && s0.pending == [] && s0.nextRef == 0 && !s0.stopping
    ensures es == es0 + [EvBeginSync(true), EvFromA(Leaf(7, Written), true, true), EvCaptured(false)]
    ensures s == Run(INITIAL, es, true)
    ensures s.pending == [Held(0, Leaf(7, Written))] && s.handoff == Capturing && s.login == NoLogin
            && s.channel == s0.channel
  {
    hide Run;
    es, s := Then(es0, s0, EvBeginSync(true), true);
    assert s.pending == [] && s.handoff == Capturing && s.client == Syncing && s.login == Waiting(s0.login.c);
    es, s := Then(es, s, EvFromA(Leaf(7, Written), true, true), true);
    assert s.pending == [Held(0, Leaf(7, Written))] && s.handoff == Capturing && s.login == Waiting(s0.login.c);
    es, s := Then(es, s, EvCaptured(false), true);
  }

  // The hypothesis is needed: a second intention on the client channel after a failed capture
  // leaves the buffer filled in another state.
  lemma SecondIntention() returns (es: seq<Event>)
    ensures var s := Run(INITIAL, es, true);
            !OneIntention(es) && s.pending == [Held(0, Leaf(7, Written))] && s.client == AwaitLogin
                && s.handoff == Capturing
  {
    hide Run;
    var s := RunNone();
    es := [];
    es, s := Then(es, s, EvStart, true);
    es, s := Then(es, s, EvSetMid, true);
    es, s := Then(es, s, EvIntention(0, true), true);
    assert s == INITIAL.(stopping := false, midSession := true, channel := Some(0), client := AwaitLogin);
    es, s := Then(es, s, EvHello(0), true);
    es, s := Then(es, s, EvReadMid, true);
    assert s == INITIAL.(stopping := false, midSession := true, channel := Some(0), client := AwaitLogin,
           login := Reconstruct(0));
    var f;
    es, f := FailedCapture(es, s);
    es, s := Then(es, f, EvIntention(0, true), true);
    assert es[2] == EvIntention(0, true) && es[8] == EvIntention(0, true);
  }

  // ---------------------------------------------------------------- the ledger

  // Each reference made for a buffered packet is in the buffer or was deleted, never both and
  // never twice; no other reference is touched.
  lemma EachReferenceOnce(es: seq<Event>, ackBound: bool, r: Ref)
    ensures var s := Run(INITIAL, es, ackBound);
            multiset(Refs(s.pending))[r] + multiset(s.deleted)[r] == if r < s.nextRef then 1 else 0
  {
    hide Run, Control, Jobs, Stream, Refs, Upto;
    Reachable(es, ackBound);
    UptoCount(Run(INITIAL, es, ackBound).nextRef, r);
  }

  // After a completed stop nothing is left: every reference was deleted exactly once.
  lemma NothingLeftAfterStop(es: seq<Event>, ackBound: bool, r: Ref)
    requires var s := Run(INITIAL, es, ackBound); s.stopping && s.login == NoLogin
    ensures var t := Run(INITIAL, es + [EvStopDone], ackBound);
            t.pending == [] && multiset(t.deleted)[r] == if r < t.nextRef then 1 else 0
  {
    hide Run, Upto;
    RunSnoc(INITIAL, es, EvStopDone, ackBound);
    EachReferenceOnce(es + [EvStopDone], ackBound, r);
    Nothing();
  }
}
