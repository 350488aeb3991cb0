/** The gate, the callback guard and the key edge as objects. */
module RuntimeCallbacks {
  import opened RuntimeGates
  import Model = RuntimeGates

  class RuntimeGate {
    var enabled: bool
    var inFlight: nat
    ghost var running: set<Callback>
    ghost var stops: set<Stopper>

    ghost function Value(): Gate
      reads this
    {
      Gate(enabled, inFlight, running, stops)
    }

    constructor ()
      ensures Value() == CLOSED
    {
      enabled, inFlight, running, stops := false, 0, {}, {};
    }

    method Enter(ghost cb: Callback) returns (ok: bool)
      requires cb !in running
      modifies this`inFlight, this`running
      ensures Value() == Model.Enter(old(Value()), cb) && ok == enabled
      ensures ok <==> cb in running
    {
      if !enabled {
        return false;
      }
      inFlight := (inFlight + 1) % WRAP;
      running := running + {cb};
      ok := true;
    }

    method Leave(ghost cb: Callback)
      requires cb in running
      modifies this`inFlight, this`running
      ensures Value() == Model.Leave(old(Value()), cb)
    {
      inFlight := (inFlight + WRAP - 1) % WRAP;
      running := running - {cb};
    }

    method Start()
      modifies this`enabled
      ensures Value() == Model.StartGate(old(Value()))
    {
      enabled := true;
    }

    method BeginStop(ghost k: Stopper)
      modifies this`enabled, this`stops
      ensures Value() == Model.BeginStop(old(Value()), k)
    {
      enabled, stops := false, stops + {k};
    }

    // One look of the waiting stop. With fewer than 2^32 callbacks, one that finds the counter at
    // zero leaves none behind.
    method EndStop(ghost k: Stopper, timedOut: bool) returns (returned: bool, drained: bool)
      requires k in stops
      modifies this`stops
      ensures Value() == Model.EndStop(old(Value()), k, timedOut)
      ensures drained <==> inFlight == 0
      ensures returned <==> drained || timedOut
      ensures old(Counted(Value())) && drained && |running| < WRAP ==> running == {}
    {
      drained := inFlight == 0;
      returned := drained || timedOut;
      if returned {
        stops := stops - {k};
      }
    }
  }

  // Enters on construction and leaves once, on destruction, if it entered.
  class RuntimeCallback {
    const gate: RuntimeGate
    const entered: bool

    constructor (gate: RuntimeGate, ghost cb: Callback)
      requires cb !in gate.running
      modifies gate`inFlight, gate`running
      ensures this.gate == gate && entered == gate.enabled && (entered <==> cb in gate.running)
      ensures gate.Value() == Model.Enter(old(gate.Value()), cb)
    {
      var ok := gate.Enter(cb);
      this.gate, entered := gate, ok;
    }

    method Destroy(ghost cb: Callback)
      requires entered <==> cb in gate.running
      modifies gate`inFlight, gate`running
      ensures gate.Value() == Model.Leave(old(gate.Value()), cb) && cb !in gate.running
    {
      if entered {
        gate.Leave(cb);
      }
    }
  }

  // ---------------------------------------------------------------- the key edge

  datatype Sample = Sample(down: bool, foreground: bool)

  // Which samples count as presses when wasDown was the state before them.
  function Presses(wasDown: bool, samples: seq<Sample>): (r: seq<bool>)
    ensures |r| == |samples|
    decreases |samples|
  {
    if samples == [] then []
    else [samples[0].down && !wasDown && samples[0].foreground] + Presses(samples[0].down, samples[1..])
  }

  // A press needs the key up in the sample before and down in this one, and the window in front;
  // a key held from the start gives none.
  lemma {:induction false} PressIsRise(wasDown: bool, samples: seq<Sample>, i: nat)
    requires i < |samples|
    ensures Presses(wasDown, samples)[i]
        <==> samples[i].down && samples[i].foreground && !(if i == 0 then wasDown else samples[i - 1].down)
    decreases |samples|
  {
    if i > 0 {
      PressIsRise(samples[0].down, samples[1..], i - 1);
    }
  }

  // Between two presses the key was released.
  lemma ReleaseBetweenPresses(wasDown: bool, samples: seq<Sample>, i: nat, j: nat)
    requires i < j < |samples| && Presses(wasDown, samples)[i] && Presses(wasDown, samples)[j]
    ensures i < j - 1 && !samples[j - 1].down
  {
    PressIsRise(wasDown, samples, i);
    PressIsRise(wasDown, samples, j);
  }

  class DeleteKeyEdge {
    var wasDown: bool
    ghost var samples: seq<Sample>
    ghost var pressed: seq<bool>

    ghost predicate Valid()
      reads this
    {
      pressed == Presses(true, samples) && wasDown == (samples == [] || samples[|samples| - 1].down)
    }

    constructor ()
      ensures Valid() && samples == []
    {
      wasDown, samples, pressed := true, [], [];
    }

    method Update(down: bool, foreground: bool) returns (press: bool)
      requires Valid()
      modifies this
      ensures Valid() && samples == old(samples) + [Sample(down, foreground)] && pressed == old(pressed) + [press]
    {
      press := down && !wasDown && foreground;
      PressesAppend(true, samples, Sample(down, foreground));
      wasDown := down;
      samples, pressed := samples + [Sample(down, foreground)], pressed + [press];
    }
  }

  lemma {:induction false} PressesAppend(wasDown: bool, samples: seq<Sample>, next: Sample)
    ensures Presses(wasDown, samples + [next])
         == Presses(wasDown, samples)
            + [next.down && next.foreground && !(if samples == [] then wasDown else samples[|samples| - 1].down)]
    decreases |samples|
  {
    if samples == [] {
      assert [next][1..] == [];
    } else {
      assert (samples + [next])[1..] == samples[1..] + [next];
      PressesAppend(samples[0].down, samples[1..], next);
    }
  }
}
