/** The gate that keeps callbacks and teardown apart. */
module RuntimeGates {
  // Any number of threads use it. The mutex makes entering, leaving, starting, the beginning of a
  // stop and each look of a waiting stop one step.

  // The counter is an unsigned 32-bit integer.
  const WRAP := 0x1_0000_0000

  type Callback = nat
  type Stopper = nat

  // running: the admitted callbacks that have not left. stops: the waiting stops.
  datatype Gate = Gate(
    enabled: bool,
    inFlight: nat,
    running: set<Callback>,
    stops: set<Stopper>)

  const CLOSED := Gate(false, 0, {}, {})

  datatype Event =
    | EvEnter(cb: Callback)
    | EvLeave(cb: Callback)
    | EvStart
    | EvBeginStop(k: Stopper)
    | EvEndStop(k: Stopper, timedOut: bool)

  function Enter(g: Gate, cb: Callback): Gate {
    if g.enabled && cb !in g.running then g.(inFlight := (g.inFlight + 1) % WRAP, running := g.running + {cb}) else g
  }

  // Only a callback that entered leaves.
  function Leave(g: Gate, cb: Callback): Gate {
    if cb in g.running then g.(inFlight := (g.inFlight + WRAP - 1) % WRAP, running := g.running - {cb}) else g
  }

  function StartGate(g: Gate): Gate {
    g.(enabled := true)
  }

  function BeginStop(g: Gate, k: Stopper): Gate {
    g.(enabled := false, stops := g.stops + {k})
  }

  // The stop returns true when nothing is in flight, false when its time is up, or waits on.
  function EndStop(g: Gate, k: Stopper, timedOut: bool): Gate {
    if g.inFlight == 0 || timedOut then g.(stops := g.stops - {k}) else g
  }

  function Step(g: Gate, e: Event): Gate {
    match e
    case EvEnter(cb) => Enter(g, cb)
    case EvLeave(cb) => Leave(g, cb)
    case EvStart => StartGate(g)
    case EvBeginStop(k) => BeginStop(g, k)
    case EvEndStop(k, timedOut) => EndStop(g, k, timedOut)
  }

  function Run(g: Gate, es: seq<Event>): Gate
    decreases |es|
  {
    if es == [] then g else Run(Step(g, es[0]), es[1..])
  }

  // Never 2^32 callbacks at once.
  predicate Few(g: Gate, es: seq<Event>)
    decreases |es|
  {
    |g.running| < WRAP && (es != [] ==> Few(Step(g, es[0]), es[1..]))
  }

  predicate Counted(g: Gate) {
    g.inFlight == |g.running| % WRAP
  }

  lemma Wrapped(n: nat)
    ensures (n % WRAP + 1) % WRAP == (n + 1) % WRAP
    ensures n > 0 ==> (n % WRAP + WRAP - 1) % WRAP == (n - 1) % WRAP
  {
  }

  lemma KeepCounted(g: Gate, e: Event)
    requires Counted(g)
    ensures Counted(Step(g, e))
  {
    Wrapped(|g.running|);
    match e
    case EvEnter(cb) =>
      if cb !in g.running {
        assert |g.running + {cb}| == |g.running| + 1;
      }
    case EvLeave(cb) =>
      if cb in g.running {
        assert |g.running - {cb}| == |g.running| - 1;
      }
    case _ =>
  }

  lemma NothingInFlight(g: Gate)
    requires Counted(g) && |g.running| < WRAP
    ensures g.inFlight == 0 <==> g.running == {}
  {
  }

  lemma {:induction false} KeepRun(g: Gate, es: seq<Event>)
    requires Counted(g) && Few(g, es)
    ensures Counted(Run(g, es)) && |Run(g, es).running| < WRAP
    decreases |es|
  {
    hide Counted, Step;
    if es != [] {
      KeepCounted(g, es[0]);
      KeepRun(Step(g, es[0]), es[1..]);
    }
  }

  // The counter is the number of admitted callbacks that have not left, in every interleaving.
  lemma InFlightCounts(es: seq<Event>)
    requires Few(CLOSED, es)
    ensures var g := Run(CLOSED, es); g.inFlight == |g.running|
  {
    hide Run;
    assert Counted(CLOSED);
    KeepRun(CLOSED, es);
  }

  predicate NoStart(es: seq<Event>) {
    forall i :: 0 <= i < |es| ==> es[i] != EvStart
  }

  // No callback runs and none is admitted.
  ghost predicate Quiet(g: Gate) {
    g.running == {} && forall cb :: Enter(g, cb) == g
  }

  lemma {:induction false} QuietStays(g: Gate, es: seq<Event>)
    requires g.running == {} && !g.enabled && NoStart(es)
    ensures Quiet(Run(g, es))
    decreases |es|
  {
    if es != [] {
      assert es[0] != EvStart;
      QuietStays(Step(g, es[0]), es[1..]);
    }
  }

  // The stop's look at the counter finds it zero, so that the stop returns true.
  predicate Returns(g: Gate, k: Stopper) {
    k in g.stops && g.inFlight == 0
  }

  // After a stop that returns true no callback runs or is admitted until the next start, if and
  // only if the gate is closed when it returns.
  lemma TeardownAlone(es: seq<Event>, k: Stopper, timedOut: bool)
    requires Few(CLOSED, es) && Returns(Run(CLOSED, es), k)
    ensures var g := Run(CLOSED, es);
            (forall fs | NoStart(fs) :: Quiet(Run(EndStop(g, k, timedOut), fs))) <==> !g.enabled
  {
    hide Few, Step;
    assert Counted(CLOSED);
    KeepRun(CLOSED, es);
    var g := Run(CLOSED, es);
    NothingInFlight(g);
    var t := EndStop(g, k, timedOut);
    if g.enabled {
      assert NoStart([]) && Run(t, []) == t;
      assert Enter(t, 0).running == {0};
    } else {
      forall fs | NoStart(fs) ensures Quiet(Run(t, fs)) {
        QuietStays(t, fs);
      }
    }
  }

  lemma RunOne(g: Gate, e: Event)
    ensures Run(g, [e]) == Step(g, e)
  {
    hide Step;
    assert [e][1..] == [];
  }

  // A stop begins after every start.
  predicate Shut(es: seq<Event>) {
    forall i :: 0 <= i < |es| && es[i] == EvStart ==> exists j :: i < j < |es| && es[j].EvBeginStop?
  }

  // The gate is closed exactly when a stop began after every start, whichever stop that was.
  lemma {:induction false} ClosedIffShut(es: seq<Event>)
    ensures !Run(CLOSED, es).enabled <==> Shut(es)
    decreases |es|
  {
    if es != [] {
      var n := |es| - 1;
      ClosedIffShut(es[..n]);
      RunJoin(CLOSED, es[..n], [es[n]]);
      assert es[..n] + [es[n]] == es;
      RunOne(Run(CLOSED, es[..n]), es[n]);
      ShutAppend(es);
    }
  }

  lemma ShutAppend(es: seq<Event>)
    requires es != []
    ensures var last := es[|es| - 1];
            Shut(es) <==> last.EvBeginStop? || (last != EvStart && Shut(es[..|es| - 1]))
  {
    var n := |es| - 1;
    if Shut(es) && !es[n].EvBeginStop? {
      forall i | 0 <= i < n && es[..n][i] == EvStart
        ensures exists j :: i < j < n && es[..n][j].EvBeginStop?
      {
        var j :| i < j < |es| && es[j].EvBeginStop?;
        assert es[..n][j].EvBeginStop?;
      }
    } else if es[n] != EvStart && Shut(es[..n]) {
      forall i | 0 <= i < |es| && es[i] == EvStart
        ensures exists j :: i < j < |es| && es[j].EvBeginStop?
      {
        assert es[..n][i] == EvStart;
        var j :| i < j < n && es[..n][j].EvBeginStop?;
        assert es[j].EvBeginStop?;
      }
    }
  }

  lemma {:induction false} RunJoin(g: Gate, es: seq<Event>, fs: seq<Event>)
    ensures Run(g, es + fs) == Run(Run(g, es), fs)
    decreases |es|
  {
    hide Step;
    if es == [] {
      assert es + fs == fs;
    } else {
      assert (es + fs)[1..] == es[1..] + fs;
      RunJoin(Step(g, es[0]), es[1..], fs);
    }
  }

  // A start between the beginning and the end of a stop takes the promise away: the stop returns
  // true and a callback enters.
  lemma StartDuringStop()
    ensures var g := Run(CLOSED, [EvBeginStop(0), EvStart]);
            Returns(g, 0) && Enter(EndStop(g, 0, false), 7).running == {7}
  {
    assert [EvBeginStop(0), EvStart][1..] == [EvStart];
    RunOne(BeginStop(CLOSED, 0), EvStart);
  }

  // ---------------------------------------------------------------- who enters, and that stops end

  // In every run a callback is admitted exactly when a start came after every stop.
  lemma EntersExactly(es: seq<Event>, cb: Callback)
    requires cb !in Run(CLOSED, es).running
    ensures cb in Run(CLOSED, es + [EvEnter(cb)]).running <==> !Shut(es)
  {
    hide Run;
    RunJoin(CLOSED, es, [EvEnter(cb)]);
    RunOne(Run(CLOSED, es), EvEnter(cb));
    ClosedIffShut(es);
  }

  // A stop is over exactly when it looks while no callback runs, or when its time is up.
  lemma StopsExactly(es: seq<Event>, k: Stopper, timedOut: bool)
    requires Few(CLOSED, es) && k in Run(CLOSED, es).stops
    ensures k !in Run(CLOSED, es + [EvEndStop(k, timedOut)]).stops <==> Run(CLOSED, es).running == {} || timedOut
  {
    hide Run, Few;
    RunJoin(CLOSED, es, [EvEndStop(k, timedOut)]);
    RunOne(Run(CLOSED, es), EvEndStop(k, timedOut));
    assert Counted(CLOSED);
    KeepRun(CLOSED, es);
    NothingInFlight(Run(CLOSED, es));
  }

  // When every running callback leaves, in any order, none runs, whatever came before; so a waiting stop
  // returns true at its next look.
  lemma {:induction false} AllLeave(g: Gate, cbs: seq<Callback>)
    requires forall cb <- g.running :: cb in cbs
    requires Counted(g) && |g.running| < WRAP
    ensures var t := Run(g, Leaving(cbs));
            t.running == {} && t.inFlight == 0 && t.stops == g.stops && t.enabled == g.enabled
    decreases |cbs|
  {
    if cbs == [] {
      assert g.running == {};
    } else {
      KeepCounted(g, EvLeave(cbs[0]));
      var next := Leave(g, cbs[0]);
      assert next.running == g.running - {cbs[0]};
      FewerRun(g, cbs[0]);
      AllLeave(next, cbs[1..]);
      assert Leaving(cbs)[1..] == Leaving(cbs[1..]);
    }
  }

  lemma FewerRun(g: Gate, cb: Callback)
    ensures |g.running - {cb}| <= |g.running|
  {
    if cb in g.running {
      assert g.running == g.running - {cb} + {cb};
    } else {
      assert g.running - {cb} == g.running;
    }
  }

  function Leaving(cbs: seq<Callback>): seq<Event> {
    seq(|cbs|, i requires 0 <= i < |cbs| => EvLeave(cbs[i]))
  }
}
