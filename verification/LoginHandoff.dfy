/** The handoff state machine of a mid-session login. Times are seconds of a clock that only
    the caller reads. */
module LoginHandoff {
  const TELEPORT_ID := -2147483647
  const DEADLINE := 20

  datatype Phase = Idle | Capturing | AwaitingAck | Active | Failed

  class LoginHandoff {
    var state: Phase
    var deadline: int

    constructor ()
      ensures state == Idle
    {
      state, deadline := Idle, 0;
    }

    method Reset()
      modifies this`state
      ensures state == Idle
    {
      state := Idle;
    }

    method Begin(now: int)
      modifies this
      ensures state == Capturing && deadline == now + 20
    {
      state, deadline := Capturing, now + DEADLINE;
    }

    method SnapshotSent() returns (ok: bool)
      modifies this`state
      ensures ok <==> old(state) == Capturing
      ensures state == if ok then AwaitingAck else old(state)
    {
      if state != Capturing {
        return false;
      }
      state := AwaitingAck;
      ok := true;
    }

    // Consumes the local id whatever the state; only AwaitingAck moves on it.
    method Acknowledge(id: int) returns (consumed: bool)
      modifies this`state
      ensures consumed <==> id == TELEPORT_ID
      ensures state == if consumed && old(state) == AwaitingAck then Active else old(state)
    {
      if id != TELEPORT_ID {
        return false;
      }
      if state == AwaitingAck {
        state := Active;
      }
      consumed := true;
    }

    method Expired(now: int) returns (expired: bool)
      ensures expired <==> (state == Capturing || state == AwaitingAck) && now >= deadline
    {
      expired := (state == Capturing || state == AwaitingAck) && now >= deadline;
    }

    method Fail()
      modifies this`state
      ensures state == Failed
    {
      state := Failed;
    }
  }
}
