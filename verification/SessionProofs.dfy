/** The invariant of the mid-session login: who is in control, what B receives, and what happens
    to every buffered packet. It is kept by each step of each thread, and what follows from it
    for whole runs is stated in the modules that import this one. */
module SessionProofs {
  import opened Wrappers
  import opened LoginHandoff
  import opened References
  import opened SessionModel

  // ---------------------------------------------------------------- reading the history

  // How far the latest login has come according to the history alone. PBounded: boundary is the job
  // that passed a boundary last.
  datatype Progress =
    | POut
    | PBegun(c: Chan, job: nat)
    | PBounded(c: Chan, job: nat, boundary: nat)
    | PWritten(c: Chan)
    | PSent(c: Chan)
    | PControl(c: Chan)
    | PFree(c: Chan)

  function Advance(p: Progress, n: Note): Progress {
    match n
    case Begun(c, job) => PBegun(c, job)
    case Bounded(j) => if p.PBegun? || p.PBounded? then PBounded(p.c, p.job, j) else p
    case SnapshotWritten(c, job) => if p == PBounded(c, job, job) then PWritten(c) else POut
    case Sent(c) => if p == PWritten(c) then PSent(c) else POut
    case LocalAck(c) => if p == PSent(c) then PControl(c) else p
    case Direct(c) => PFree(c)
    case Broken => POut
    case LiveWrite(_, _) => p
    case Routed(_, _) => p
  }

  function ProgressOf(log: seq<Note>): Progress
    decreases |log|
  {
    if log == [] then POut else Advance(ProgressOf(log[..|log| - 1]), log[|log| - 1])
  }

  // What a note needs of the history before it.
  predicate Allowed(p: Progress, n: Note) {
    match n
    case Routed(c, _) => p == PControl(c) || p == PFree(c)
    case LiveWrite(c, _) => p == PSent(c) || p == PControl(c) || p == PFree(c)
    case _ => true
  }

  predicate SafeLog(log: seq<Note>)
    decreases |log|
  {
    log == [] || (SafeLog(log[..|log| - 1]) && Allowed(ProgressOf(log[..|log| - 1]), log[|log| - 1]))
  }

  // The leaves written to B since the last begin or direct start.
  function LiveOf(log: seq<Note>): seq<nat>
    decreases |log|
  {
    if log == [] || log[|log| - 1].Begun? || log[|log| - 1].Direct? then []
    else
      LiveOf(log[..|log| - 1]) + (if log[|log| - 1].LiveWrite? then [log[|log| - 1].leaf] else [])
  }

  function Live(s: State): seq<nat> {
    LiveOf(s.log)
  }

  lemma Appended(log: seq<Note>, n: Note)
    ensures ProgressOf(log + [n]) == Advance(ProgressOf(log), n)
    ensures LiveOf(log + [n]) ==
            if n.Begun? || n.Direct? then []
            else if n.LiveWrite? then LiveOf(log) + [n.leaf]
            else LiveOf(log)
    ensures SafeLog(log + [n]) <==> SafeLog(log) && Allowed(ProgressOf(log), n)
  {
    assert (log + [n])[..|log|] == log;
  }

  // ---------------------------------------------------------------- invariants

  predicate Control(s: State) {
    var p := ProgressOf(s.log);
    && (s.client == AwaitHandshake <==> s.channel.None?)
    && (s.channel.None? ==> p == POut && !s.closing)
    && (s.login != NoLogin ==> s.channel == Some(s.login.c))
    && (s.handoff != Idle ==> s.midSession && (s.handoff != Failed ==> s.channel.Some?))
    && (s.login.Reconstruct? || s.login.Waiting? || s.login.Writing? || (s.login.Tail? && s.login.snapshot)
       ==> s.midSession)
    && (s.login.Tail? && !s.login.snapshot ==> s.handoff == Idle)
    && (s.login.Named? || s.login.Reconstruct? || (s.login.Tail? && !s.login.snapshot) ==> s.client == AwaitLogin)
    && (s.login.Waiting? || s.login.Writing? || (s.login.Tail? && s.login.snapshot) ==> s.client == Syncing)
    && (s.handoff == Failed || (s.client == Syncing && s.handoff != Capturing) ==> p == POut)
    && (s.handoff == AwaitingAck ==> p == PSent(s.channel.value))
    && (s.handoff == Active ==> p == PControl(s.channel.value))
    && (s.client == Play ==> s.handoff == Active || (s.handoff == Idle && p == PFree(s.channel.value)))
    && (s.client == AwaitReady ==> s.handoff == AwaitingAck || (s.handoff == Idle && s.closing))
    && (s.handoff == Capturing && s.login.Waiting? ==>
          p == PBegun(s.login.c, s.job) || (p.PBounded? && p.c == s.login.c && p.job == s.job))
    && (s.handoff == Capturing && (s.login.Waiting? || s.login.Writing?) && s.bounded
       ==> p == PBounded(s.login.c, s.job, s.job))
    && (s.handoff == Capturing && s.login.Tail? ==> p == PWritten(s.login.c))
    && SafeLog(s.log)
  }

  predicate Jobs(s: State) {
    && (forall j <- s.queued :: j == s.job && s.login.Waiting?)
    && (s.bounded ==> s.queued == {} && (s.running.None? || s.running.value == s.job))
    && (s.captured ==> s.bounded && s.queued == {} && s.running.None?)
    && (s.login.Writing? || (s.login.Tail? && s.login.snapshot) ==> s.captured)
    && (s.running.Some? ==> s.running.value <= s.job && s.running.value !in s.queued)
  }

  // Each reference made so far is in the buffer or was deleted, once.
  predicate Ledger(s: State) {
    multiset(Refs(s.pending)) + multiset(s.deleted) == Upto(s.nextRef)
  }

  predicate Buffer(s: State) {
    |s.pending| <= MAX_PENDING && (s.pending != [] ==> s.handoff == Capturing) && Ledger(s)
  }

  // live is what B got of the packets in done.
  predicate Delivered(s: State, done: seq<Packet>) {
    Prefix(Live(s), Expected(done)) && (!s.closing && !s.stopping ==> Live(s) == Expected(done))
  }

  predicate Stream(s: State) {
    && (s.handoff == Capturing ==> Live(s) == [])
    && (s.handoff == Capturing && s.client == Syncing && !s.stopping ==> Packets(s.pending) == s.since)
    && (s.client == AwaitReady || s.client == Play ==> Delivered(s, s.since))
    && Prefix(Live(s), Expected(s.since))
  }

  predicate Inv(s: State) {
    Control(s) && Jobs(s) && Buffer(s) && Stream(s)
  }

  // ---------------------------------------------------------------- buffers and ledgers

  lemma Nothing()
    ensures Refs([]) == [] && Packets([]) == [] && Expected([]) == [] && Prefix([], []) && Arrives([]) == []
  {
  }

  lemma RefsAppend(pending: seq<Held>, h: Held)
    ensures Refs(pending + [h]) == Refs(pending) + [h.ref]
    decreases |pending|
  {
    if pending != [] {
      assert (pending + [h])[1..] == pending[1..] + [h];
      RefsAppend(pending[1..], h);
    }
  }

  lemma PacketsAppend(pending: seq<Held>, h: Held)
    ensures Packets(pending + [h]) == Packets(pending) + [h.packet]
  {
    assert (pending + [h])[..|pending|] == pending;
  }

  lemma {:induction false} PacketsCons(held: seq<Held>)
    requires held != []
    ensures Packets(held) == [held[0].packet] + Packets(held[1..])
    decreases |held|
  {
    if |held| > 1 {
      var front := held[..|held| - 1];
      PacketsCons(front);
      assert front[1..] == held[1..][..|held| - 2];
    }
  }

  lemma ClearKeeps(s: State)
    requires Ledger(s)
    ensures Ledger(Clear(s)) && Clear(s).pending == []
  {
  }

  lemma ExpectedAppend(done: seq<Packet>, p: Packet)
    ensures Expected(done + [p]) == Expected(done) + Due(Reached(p))
  {
    assert (done + [p])[..|done|] == done;
  }

  // ---------------------------------------------------------------- delivering

  predicate Prefix(xs: seq<nat>, ys: seq<nat>) {
    xs <= ys
  }

  lemma PrefixRules(xs: seq<nat>, ys: seq<nat>, zs: seq<nat>)
    ensures Prefix(xs, ys) ==> Prefix(xs, ys + zs)
    ensures Prefix(ys, zs) ==> Prefix(xs + ys, xs + zs)
    ensures Prefix(xs, xs) && Prefix([], xs)
  {
  }

  predicate SameBut(s: State, t: State) {
    t == s.(closing := t.closing, log := t.log)
  }

  predicate MayWrite(s: State, c: Chan) {
    s.closing || Allowed(ProgressOf(s.log), LiveWrite(c, 0))
  }

  // The due ids before the first leaf that closes the channel.
  function Arrives(leaves: seq<Packet>): seq<nat> {
    if leaves == [] || (leaves[0].Leaf? && leaves[0].fate == Rejected) then []
    else (if leaves[0].Leaf? && leaves[0].fate == Written then [leaves[0].id] else []) + Arrives(leaves[1..])
  }

  predicate Closes(leaves: seq<Packet>) {
    leaves != [] && ((leaves[0].Leaf? && leaves[0].fate == Rejected) || Closes(leaves[1..]))
  }

  lemma {:induction false} ArrivesDue(leaves: seq<Packet>)
    requires forall l <- leaves :: l.Leaf?
    ensures Prefix(Arrives(leaves), Due(leaves)) && (!Closes(leaves) ==> Arrives(leaves) == Due(leaves))
    decreases |leaves|
  {
    if leaves != [] {
      ArrivesDue(leaves[1..]);
    }
  }

  // Delivering leaves changes the channel flag, the delivered ids and the history alone.
  lemma {:induction false} DeliverSame(s: State, c: Chan, leaves: seq<Packet>)
    requires forall l <- leaves :: l.Leaf?
    ensures var t := Deliver(s, c, leaves);
            SameBut(s, t) && t.closing == (s.closing || Closes(leaves))
    decreases |leaves|
  {
    if leaves != [] {
      DeliverSame(DeliverLeaf(s, c, leaves[0]), c, leaves[1..]);
    }
  }

  // What one leaf adds.
  function First(closed: bool, leaf: Packet): seq<nat>
    requires leaf.Leaf?
  {
    if closed || leaf.fate != Written then [] else [leaf.id]
  }

  lemma LeafIds(s: State, c: Chan, leaf: Packet)
    requires leaf.Leaf?
    ensures var t := DeliverLeaf(s, c, leaf);
            Live(t) == Live(s) + First(s.closing, leaf) && t.closing == (s.closing || leaf.fate == Rejected)
  {
    hide LiveOf, ProgressOf, SafeLog, Allowed, Advance;
    NothingMore(Live(s));
    Appended(s.log, LiveWrite(c, leaf.id));
  }

  lemma ArrivesStep(leaves: seq<Packet>, closed: bool)
    requires leaves != [] && leaves[0].Leaf?
    ensures var next := closed || leaves[0].fate == Rejected;
            (if closed then [] else Arrives(leaves))
              == First(closed, leaves[0]) + (if next then [] else Arrives(leaves[1..]))
  {
  }

  lemma {:induction false} DeliverIds(s: State, c: Chan, leaves: seq<Packet>)
    requires forall l <- leaves :: l.Leaf?
    ensures Live(Deliver(s, c, leaves)) == Live(s) + (if s.closing then [] else Arrives(leaves))
    decreases |leaves|
  {
    hide Live, LiveOf, Arrives, First, DeliverLeaf;
    if leaves == [] {
      NothingMore(Live(s));
      Nothing();
    } else {
      var next := DeliverLeaf(s, c, leaves[0]);
      LeafIds(s, c, leaves[0]);
      DeliverIds(next, c, leaves[1..]);
      ArrivesStep(leaves, s.closing);
      Assoc(Live(s), First(s.closing, leaves[0]), if next.closing then [] else Arrives(leaves[1..]));
    }
  }

  lemma NothingMore<T>(xs: seq<T>)
    ensures xs + [] == xs && [] + xs == xs
  {
  }

  lemma Assoc<T>(xs: seq<T>, ys: seq<T>, zs: seq<T>)
    ensures (xs + ys) + zs == xs + (ys + zs)
  {
  }

  lemma {:induction false} DeliverLog(s: State, c: Chan, leaves: seq<Packet>)
    requires forall l <- leaves :: l.Leaf?
    requires SafeLog(s.log) && MayWrite(s, c)
    ensures var t := Deliver(s, c, leaves);
            ProgressOf(t.log) == ProgressOf(s.log) && SafeLog(t.log)
    decreases |leaves|
  {
    hide ProgressOf, LiveOf, SafeLog;
    if leaves != [] {
      Appended(s.log, LiveWrite(c, leaves[0].id));
      DeliverLog(DeliverLeaf(s, c, leaves[0]), c, leaves[1..]);
    }
  }

  lemma ForwardKeeps(s: State, done: seq<Packet>, p: Packet)
    requires s.channel.Some? && SafeLog(s.log) && MayWrite(s, s.channel.value) && Delivered(s, done)
    ensures var t := ForwardLive(s, p);
            && SameBut(s, t) && Delivered(t, done + [p]) && (s.closing ==> t.closing)
            && ProgressOf(t.log) == ProgressOf(s.log) && SafeLog(t.log)
  {
    hide ProgressOf, LiveOf, SafeLog, Expected, Reached, Deliver, Prefix, Arrives, Due, Closes, Allowed;
    var due := Due(Reached(p));
    ExpectedAppend(done, p);
    PrefixRules(Live(s), Expected(done), due);
    if !s.stopping {
      var leaves := Reached(p);
      ReachedLeaves(p);
      DeliverSame(s, s.channel.value, leaves);
      DeliverIds(s, s.channel.value, leaves);
      DeliverLog(s, s.channel.value, leaves);
      ArrivesDue(leaves);
      PrefixRules(Live(s), Arrives(leaves), due);
      NothingMore(Live(s));
    }
  }

  lemma ForwardSameBut(s: State, p: Packet)
    ensures SameBut(s, ForwardLive(s, p))
  {
    hide Reached, Arrives, Closes;
    if s.channel.Some? {
      ReachedLeaves(p);
      DeliverSame(s, s.channel.value, Reached(p));
    }
  }

  predicate Framed(s: State, t: State) {
    t == s.(closing := t.closing, log := t.log, stopping := t.stopping, deleted := t.deleted)
  }

  lemma {:induction false} DrainFrame(s: State, held: seq<Held>, stopAfter: nat)
    ensures Framed(s, Drain(s, held, stopAfter))
    decreases |held|
  {
    hide ForwardLive;
    if held != [] {
      var first := if stopAfter == 0 then s.(stopping := true) else s;
      ForwardSameBut(first, held[0].packet);
      var next := ForwardLive(first, held[0].packet);
      next := next.(deleted := next.deleted + [held[0].ref]);
      DrainFrame(next, held[1..], if stopAfter == 0 then 0 else stopAfter - 1);
    }
  }

  lemma {:induction false} DrainDeleted(s: State, held: seq<Held>, stopAfter: nat)
    ensures Drain(s, held, stopAfter).deleted == s.deleted + Refs(held)
    decreases |held|
  {
    hide ForwardLive;
    if held == [] {
      NothingMore(s.deleted);
    } else {
      var first := if stopAfter == 0 then s.(stopping := true) else s;
      ForwardSameBut(first, held[0].packet);
      var next := ForwardLive(first, held[0].packet);
      next := next.(deleted := next.deleted + [held[0].ref]);
      DrainDeleted(next, held[1..], if stopAfter == 0 then 0 else stopAfter - 1);
      Assoc(s.deleted, [held[0].ref], Refs(held[1..]));
    }
  }

  lemma {:induction false} DrainKeeps(s: State, held: seq<Held>, stopAfter: nat, done: seq<Packet>)
    requires s.channel.Some? && SafeLog(s.log) && MayWrite(s, s.channel.value) && Delivered(s, done)
    ensures var t := Drain(s, held, stopAfter);
            && Delivered(t, done + Packets(held)) && (s.closing ==> t.closing)
            && ProgressOf(t.log) == ProgressOf(s.log) && SafeLog(t.log)
    decreases |held|
  {
    hide ProgressOf, LiveOf, SafeLog, Expected, ForwardLive, Prefix, Packets, Allowed, Refs;
    if held == [] {
      Nothing();
      NothingMore(done);
    } else {
      var first := if stopAfter == 0 then s.(stopping := true) else s;
      ForwardKeeps(first, done, held[0].packet);
      var next := ForwardLive(first, held[0].packet);
      next := next.(deleted := next.deleted + [held[0].ref]);
      DrainKeeps(next, held[1..], if stopAfter == 0 then 0 else stopAfter - 1, done + [held[0].packet]);
      PacketsCons(held);
      Assoc(done, [held[0].packet], Packets(held[1..]));
    }
  }

  // ---------------------------------------------------------------- every step keeps the invariants

  lemma KeepFromA(s: State, p: Packet, game: bool, refOk: bool)
    requires Inv(s)
    ensures Inv(FromA(s, p, game, refOk))
  {
    hide Inv, ForwardLive, Clear;
    if !game {
      return;
    }
    var dropped := s.client != Play && s.client != AwaitReady && (s.client != Syncing || s.handoff != Capturing);
    if s.stopping || dropped {
      FromADropped(s, p);
    } else if s.client == Syncing {
      if |s.pending| < MAX_PENDING && refOk {
        FromABuffered(s, p);
      } else {
        FromAOverflow(s, p);
      }
    } else {
      FromALive(s, p);
    }
  }

  lemma FromADropped(s: State, p: Packet)
    requires Inv(s)
    requires || s.stopping
             || (s.client != Play && s.client != AwaitReady && (s.client != Syncing || s.handoff != Capturing))
    ensures Inv(s.(since := s.since + [p]))
  {
    hide ProgressOf, LiveOf, SafeLog, Expected, Refs, Packets, Upto, Prefix, Due, Reached;
    ExpectedAppend(s.since, p);
    PrefixRules(Live(s), Expected(s.since), Due(Reached(p)));
  }

  lemma FromABuffered(s: State, p: Packet)
    requires Inv(s) && s.client == Syncing && s.handoff == Capturing && !s.stopping && |s.pending| < MAX_PENDING
    ensures Inv(s.(since := s.since + [p], pending := s.pending + [Held(s.nextRef, p)], nextRef := s.nextRef + 1))
  {
    hide ProgressOf, LiveOf, SafeLog, Expected, Refs, Packets, Upto, Prefix, Due, Reached;
    ExpectedAppend(s.since, p);
    PrefixRules(Live(s), Expected(s.since), Due(Reached(p)));
    RefsAppend(s.pending, Held(s.nextRef, p));
    PacketsAppend(s.pending, Held(s.nextRef, p));
    UptoNext(s.nextRef);
  }

  lemma FromAOverflow(s: State, p: Packet)
    requires Inv(s) && s.client == Syncing && s.handoff == Capturing && !s.stopping
    ensures Inv(Clear(FailHandoff(s.(since := s.since + [p]))))
  {
    hide ProgressOf, LiveOf, SafeLog, Expected, Refs, Packets, Upto, Prefix, Due, Reached;
    ExpectedAppend(s.since, p);
    PrefixRules(Live(s), Expected(s.since), Due(Reached(p)));
    Appended(s.log, Broken);
    Nothing();
  }

  lemma FromALive(s: State, p: Packet)
    requires Inv(s) && (s.client == Play || s.client == AwaitReady) && !s.stopping
    ensures Inv(ForwardLive(s.(since := s.since + [p]), p))
  {
    hide ProgressOf, LiveOf, SafeLog, Expected, Refs, Packets, Upto, Prefix, ForwardLive;
    ForwardKeeps(s.(since := s.since + [p]), s.since, p);
  }

  lemma {:induction false} KeepIntention(s: State, c: Chan, refOk: bool)
    requires Inv(s)
    ensures Inv(Intention(s, c, refOk))
  {
    hide ProgressOf, LiveOf, SafeLog, Expected, Refs, Packets, Upto, Prefix, Allowed, Advance, Ledger;
    SameLedger(s, Intention(s, c, refOk));
  }

  lemma KeepBeginSync(s: State, ok: bool)
    requires Inv(s)
    ensures Inv(BeginSync(s, ok))
  {
    hide ProgressOf, LiveOf, SafeLog, Expected, Refs, Packets, Upto, Prefix, Ledger;
    ClearKeeps(s);
    SameLedger(Clear(s), BeginSync(s, ok));
    SameLedger(s, BeginSync(s, ok));
    if s.login.Reconstruct? {
      Appended(s.log, Begun(s.login.c, s.job + 1));
      Nothing();
    }
  }

  lemma {:induction false} KeepWriteSnapshot(s: State, ok: bool)
    requires Inv(s)
    ensures Inv(WriteSnapshot(s, ok))
  {
    hide ProgressOf, LiveOf, SafeLog, Expected, Refs, Packets, Upto, Prefix, Ledger;
    ClearKeeps(s);
    SameLedger(Clear(s), WriteSnapshot(s, ok));
    SameLedger(s, WriteSnapshot(s, ok));
    if s.login.Writing? {
      Appended(s.log, SnapshotWritten(s.login.c, s.job));
      Appended(s.log, Broken);
      Nothing();
    }
  }

  lemma {:induction false} KeepFinishLogin(s: State, stopAfter: nat)
    requires Inv(s)
    ensures Inv(FinishLogin(s, stopAfter))
  {
    hide Inv, CheckTimeout, Drain;
    if s.login.Tail? {
      if !s.midSession {
        FinishDirect(s);
      } else if !s.stopping && s.handoff != Capturing {
        FinishFailed(s);
      } else if !s.stopping {
        FinishSent(s, stopAfter);
      } else {
        FinishStopped(s);
      }
    }
  }

  lemma FinishStopped(s: State)
    requires Inv(s) && s.stopping && s.login.Tail?
    ensures Inv(s.(login := NoLogin))
  {
    hide ProgressOf, LiveOf, SafeLog, Expected, Refs, Packets, Upto, Prefix;
  }

  lemma FinishDirect(s: State)
    requires Inv(s) && s.login.Tail? && !s.midSession
    ensures Inv(With(s.(client := Play, login := NoLogin, since := []), Direct(s.login.c)))
  {
    hide ProgressOf, LiveOf, SafeLog, Expected, Refs, Packets, Upto, Prefix;
    Appended(s.log, Direct(s.login.c));
    Nothing();
  }

  lemma FinishFailed(s: State)
    requires Inv(s) && s.login.Tail? && s.midSession && s.handoff != Capturing
    ensures Inv(CheckTimeout(FailHandoff(s), false).(login := NoLogin))
  {
    hide ProgressOf, LiveOf, SafeLog, Expected, Refs, Packets, Upto, Prefix;
    Appended(s.log, Broken);
    var failed := FailHandoff(s);
    Appended(failed.log, Broken);
    Appended(failed.log + [Broken], Broken);
    Nothing();
  }

  lemma FinishSent(s: State, stopAfter: nat)
    requires Inv(s) && s.login.Tail? && s.midSession && s.handoff == Capturing && !s.stopping
    ensures var t := With(s.(handoff := AwaitingAck, client := AwaitReady, pending := [], login := NoLogin),
            Sent(s.login.c));
            Inv(Drain(t, s.pending, stopAfter))
  {
    hide ProgressOf, LiveOf, SafeLog, Expected, Refs, Packets, Upto, Prefix, Drain;
    Appended(s.log, Sent(s.login.c));
    var t := With(s.(handoff := AwaitingAck, client := AwaitReady, pending := [], login := NoLogin), Sent(s.login.c));
    Nothing();
    DrainFrame(t, s.pending, stopAfter);
    DrainDeleted(t, s.pending, stopAfter);
    DrainKeeps(t, s.pending, stopAfter, []);
    NothingMore(Packets(s.pending));
    Nothing();
    assert multiset(s.deleted + Refs(s.pending)) == multiset(Refs(s.pending)) + multiset(s.deleted);
  }

  lemma {:induction false} KeepFromB(s: State, c: Chan, m: Message, ackBound: bool)
    requires Inv(s)
    ensures Inv(FromB(s, c, m, ackBound))
  {
    hide Permitted, ProgressOf, LiveOf, SafeLog, Expected, Refs, Packets, Upto, Prefix;
    Appended(s.log, LocalAck(c));
    Appended(s.log, Routed(c, m));
  }

  lemma KeepInactive(s: State, c: Chan)
    requires Inv(s)
    ensures Inv(Inactive(s, c))
  {
    hide ProgressOf, LiveOf, SafeLog, Expected, Refs, Packets, Upto, Prefix;
    Appended(s.log, Broken);
    Nothing();
  }

  lemma KeepBoundary(s: State)
    requires Inv(s)
    ensures Inv(Boundary(s))
  {
    hide ProgressOf, LiveOf, SafeLog, Expected, Refs, Packets, Upto, Prefix;
    if s.running.Some? {
      Appended(s.log, Bounded(s.running.value));
      Nothing();
    }
  }

  lemma KeepTimeout(s: State, expired: bool)
    requires Inv(s)
    ensures Inv(CheckTimeout(s, expired))
  {
    hide ProgressOf, LiveOf, SafeLog, Expected, Refs, Packets, Upto, Prefix;
    Appended(s.log, Broken);
    Appended(s.log + [Broken], Broken);
    Nothing();
  }

  lemma KeepStopDone(s: State)
    requires Inv(s)
    ensures Inv(StopDone(s))
  {
    hide ProgressOf, LiveOf, SafeLog, Expected, Refs, Packets, Upto, Prefix;
    Appended(s.log, Broken);
    Nothing();
  }

  lemma KeepHello(s: State, c: Chan)
    requires Inv(s)
    ensures Inv(Hello(s, c))
  {
    hide ProgressOf, LiveOf, SafeLog, Expected, Refs, Packets, Upto, Prefix, Allowed, Advance, Ledger;
    SameLedger(s, Hello(s, c));
  }

  lemma KeepReadMid(s: State)
    requires Inv(s)
    ensures Inv(ReadMid(s))
  {
    hide ProgressOf, LiveOf, SafeLog, Expected, Refs, Packets, Upto, Prefix, Allowed, Advance, Ledger;
    SameLedger(s, ReadMid(s));
  }

  lemma KeepCaptured(s: State, ok: bool)
    requires Inv(s)
    ensures Inv(Captured(s, ok))
  {
    hide ProgressOf, LiveOf, SafeLog, Expected, Refs, Packets, Upto, Prefix, Allowed, Advance, Ledger;
    SameLedger(s, Captured(s, ok));
  }

  lemma KeepRunner(s: State, j: nat, ok: bool)
    requires Inv(s)
    ensures Inv(RunnerStart(s, j)) && Inv(RunnerEnd(s, ok))
  {
    hide ProgressOf, LiveOf, SafeLog, Expected, Refs, Packets, Upto, Prefix, Allowed, Advance, Ledger;
    SameLedger(s, RunnerStart(s, j));
    SameLedger(s, RunnerEnd(s, ok));
  }

  lemma KeepStartStop(s: State)
    requires Inv(s)
    ensures Inv(RequestStop(s)) && Inv(Start(s)) && Inv(SetMid(s))
  {
    hide ProgressOf, LiveOf, SafeLog, Expected, Refs, Packets, Upto, Prefix, Allowed, Advance, Ledger;
    SameLedger(s, RequestStop(s));
    SameLedger(s, Start(s));
    SameLedger(s, SetMid(s));
  }

  lemma SameLedger(s: State, t: State)
    requires Ledger(s)
    ensures t.pending == s.pending && t.deleted == s.deleted && t.nextRef == s.nextRef ==> Ledger(t)
  {
  }

  lemma KeepStep(s: State, e: Event, ackBound: bool)
    requires Inv(s)
    ensures Inv(Step(s, e, ackBound))
  {
    hide Inv, FromA, Intention, Hello, ReadMid, BeginSync, Captured, WriteSnapshot, FinishLogin, FromB, Inactive,
         RunnerStart, Boundary, RunnerEnd, CheckTimeout, RequestStop, StopDone, Start, SetMid;
    match e
    case EvFromA(p, game, refOk) => KeepFromA(s, p, game, refOk);
    case EvIntention(c, refOk) => KeepIntention(s, c, refOk);
    case EvHello(c) => KeepHello(s, c);
    case EvReadMid => KeepReadMid(s);
    case EvBeginSync(ok) => KeepBeginSync(s, ok);
    case EvCaptured(ok) => KeepCaptured(s, ok);
    case EvWriteSnapshot(ok) => KeepWriteSnapshot(s, ok);
    case EvFinishLogin(stopAfter) => KeepFinishLogin(s, stopAfter);
    case EvFromB(c, m) => KeepFromB(s, c, m, ackBound);
    case EvInactive(c) => KeepInactive(s, c);
    case EvRunnerStart(j) => KeepRunner(s, j, false);
    case EvBoundary => KeepBoundary(s);
    case EvRunnerEnd(ok) => KeepRunner(s, 0, ok);
    case EvTimeout(expired) => KeepTimeout(s, expired);
    case EvRequestStop => KeepStartStop(s);
    case EvStopDone => KeepStopDone(s);
    case EvStart => KeepStartStop(s);
    case EvSetMid => KeepStartStop(s);
  }

  lemma {:induction false} KeepRun(s: State, es: seq<Event>, ackBound: bool)
    requires Inv(s)
    ensures Inv(Run(s, es, ackBound))
    decreases |es|
  {
    hide Inv, Step;
    if es != [] {
      KeepStep(s, es[0], ackBound);
      KeepRun(Step(s, es[0], ackBound), es[1..], ackBound);
    }
  }

  lemma InitialInv()
    ensures Inv(INITIAL)
  {
  }
}
