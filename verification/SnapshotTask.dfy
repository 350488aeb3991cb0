/** The snapshot job and the list of untaken jobs as objects. Each method is one critical section;
    its contract says that the job's new state is the model's step from the old one. */
module SnapshotTasks {
  import opened References
  import opened SnapshotJobs
  import opened Wrappers
  import Model = SnapshotJobs

  // What is not in the job: where the two threads stand and what became of the references.
  datatype Outer = Outer(
    waiter: Waiter,
    runner: Runner,
    made: nat,
    deleted: seq<Ref>,
    released: bool,
    passed: bool,
    captured: seq<Ref>,
    handed: seq<Ref>)

  // The jobs that no thread has taken yet, found by the Java identity of their tasks.
  class JobList {
    var jobs: seq<SnapshotJob>

    ghost predicate Valid()
      reads this
    {
      forall i, j :: 0 <= i < j < |jobs| ==> jobs[i].taskId != jobs[j].taskId
    }

    constructor ()
      ensures Valid() && jobs == []
    {
      jobs := [];
    }

    method Find(taskId: nat) returns (i: nat)
      ensures i <= |jobs|
      ensures i < |jobs| ==> jobs[i].taskId == taskId
      ensures forall j :: 0 <= j < i ==> jobs[j].taskId != taskId
    {
      i := 0;
      while i < |jobs| && jobs[i].taskId != taskId
        invariant i <= |jobs| && forall j :: 0 <= j < i ==> jobs[j].taskId != taskId
      {
        i := i + 1;
      }
    }

    // Takes the job of a task off the list.
    method Remove(taskId: nat) returns (job: SnapshotJob?)
      requires Valid()
      modifies this
      ensures Valid()
      ensures job == null <==> forall j <- old(jobs) :: j.taskId != taskId
      ensures job != null ==> job in old(jobs) && job.taskId == taskId
      ensures forall j :: j in jobs <==> j in old(jobs) && j != job
      ensures job == null ==> jobs == old(jobs)
    {
      var i := Find(taskId);
      if i == |jobs| {
        return null;
      }
      job := jobs[i];
      jobs := jobs[..i] + jobs[i + 1..];
    }
  }

  class SnapshotJob {
    const taskId: nat
    const list: JobList
    var done: bool
    var cancelled: bool
    var ok: bool
    var task: Option<Ref>
    var minecraft: Option<Ref>
    var connection: Option<Ref>
    var packets: seq<Ref>
    ghost var outer: Outer

    ghost function Value(): State
      reads this, list
    {
      State(this in list.jobs, done, cancelled, ok, task, minecraft, connection, packets, outer.waiter, outer.runner,
            outer.made, outer.deleted, outer.released, outer.passed, outer.captured, outer.handed)
    }

    constructor (list: JobList, taskId: nat)
      ensures this.list == list && this.taskId == taskId && this !in list.jobs ==> Value() == INITIAL
    {
      this.list, this.taskId := list, taskId;
      done, cancelled, ok := false, false, false;
      task, minecraft, connection, packets := None, None, None, [];
      outer := Outer(Start, Idle, 0, [], false, false, [], []);
    }

    method DeleteOwn()
      modifies this`outer
      ensures outer == old(outer).(deleted := old(outer).deleted + Own(old(Value())), released := true)
    {
      ghost var start := outer.deleted;
      if task.Some? {
        outer := outer.(deleted := outer.deleted + [task.value]);
      }
      assert outer.deleted == start + One(task);
      if minecraft.Some? {
        outer := outer.(deleted := outer.deleted + [minecraft.value]);
      }
      assert outer.deleted == start + (One(task) + One(minecraft));
      if connection.Some? {
        outer := outer.(deleted := outer.deleted + [connection.value]);
      }
      assert outer.deleted == start + (One(task) + One(minecraft) + One(connection));
      outer := outer.(released := true);
    }

    method DeletePackets()
      modifies this`packets, this`outer
      ensures packets == [] && outer == old(outer).(deleted := old(outer).deleted + old(packets))
    {
      var i := 0;
      while i < |packets|
        invariant i <= |packets| && packets == old(packets)
        invariant outer == old(outer).(deleted := old(outer).deleted + packets[..i])
      {
        assert packets[..i + 1] == packets[..i] + [packets[i]];
        outer := outer.(deleted := outer.deleted + [packets[i]]);
        i := i + 1;
      }
      assert packets[..|packets|] == packets;
      packets := [];
    }

    // ---------------------------------------------------------------- the waiting thread

    method Publish()
      requires outer.waiter == Made && list.Valid() && forall j <- list.jobs :: j.taskId != taskId
      modifies list, this`outer
      ensures Value() == Model.Publish(old(Value())) && list.Valid()
      ensures list.jobs == old(list.jobs) + [this]
    {
      list.jobs := list.jobs + [this];
      outer := outer.(waiter := Published);
    }

    // The wait is over: the job is done or the time is up.
    method EndWait() returns (finished: bool, result: bool, got: seq<Ref>)
      requires outer.waiter == Waiting
      modifies this`packets, this`outer
      ensures Value() == Model.EndWait(old(Value()), true)
      ensures finished == old(done) && (finished ==> result == ok && got == old(packets) == outer.handed)
    {
      finished, result, got := done, false, [];
      if done {
        result, got := ok, packets;
        packets := [];
        outer := outer.(handed := got, waiter := Returned(ok));
      } else {
        outer := outer.(waiter := Cancelling);
      }
    }

    method Cancel()
      requires outer.waiter == Cancelling
      modifies this`cancelled, this`packets, this`outer
      ensures Value() == Model.Cancel(old(Value()))
    {
      cancelled := true;
      if done {
        DeletePackets();
      }
      outer := outer.(waiter := Reaping);
    }

    // Takes an untaken job back and releases what it owns; a taken one is the runner's to release.
    method Reap()
      requires outer.waiter == Reaping && list.Valid() && forall j <- list.jobs :: j.taskId == taskId ==> j == this
      modifies list, this`outer
      ensures Value() == Model.Reap(old(Value())) && list.Valid()
    {
      var found := list.Remove(taskId);
      if found != null {
        DeleteOwn();
      }
      outer := outer.(waiter := Returned(false));
    }

    // ---------------------------------------------------------------- the render thread

    method Taken()
      requires outer.runner == Idle && this in list.jobs && list.Valid()
      modifies list, this`outer
      ensures Value() == Model.Take(old(Value())) && list.Valid()
    {
      var found := list.Remove(taskId);
      outer := outer.(runner := Model.Runner.Taken);
    }

    // packet: the reference just made for it.
    method Add(packet: Ref)
      requires outer.runner == Capturing && packet == outer.made
      modifies this`packets, this`outer
      ensures Value() == Model.Add(old(Value()))
    {
      packets := packets + [packet];
      outer := outer.(captured := outer.captured + [packet], made := outer.made + 1);
    }

    method Finish(captured: bool)
      requires outer.runner == Finishing(captured)
      modifies this`packets, this`outer, this`ok, this`done
      ensures Value() == Model.Finish(old(Value()))
    {
      if !captured || cancelled {
        DeletePackets();
      }
      DeleteOwn();
      ok, done := captured && !cancelled, true;
      outer := outer.(runner := Finished);
    }
  }
}
