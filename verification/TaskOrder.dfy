/** The run queue is first come first served. */
module TaskOrder {
  import opened Wrappers
  import opened TaskModel
  import opened TaskInvariant
  import opened TaskSteps
  import opened TaskKeeps
  import opened TaskRuns

  /** What is queued stays queued, in order, before anything new. */
  predicate Queued(w: World, w': World) {
    w.queue <= w'.queue
  }

  lemma CompleteQueues(w: World, t: Id)
    requires Core(w) && LogsOk(w) && OthersOk(w, t) && Resulted(w, t)
    ensures Queued(w, Complete(w, t))
  {
    var c := Completed(w, t);
    CompletedIsHalting(w, t);
    if w.tasks[t].join {
      WakeJoinIsCalm(c, t);
      CalmKeepsHalting(c, WakeJoin(c, t), t);
      UnbindQueues(WakeJoin(c, t), t);
    } else {
      UnbindQueues(c, t);
    }
  }

  lemma UnbindQueues(w: World, t: Id)
    requires Halting(w, t)
    ensures Unbind(w, t).queue == w.queue
  {
    UnlistedIsSteady(w, t);
    assert multiset(w.list)[t] > 0;
    ReleaseIsSteady(Unlisted(w, t), t);
  }

  lemma ConcludeQueues(w: World, t: Id)
    requires Core(w) && LogsOk(w) && OthersOk(w, t) && Resulted(w, t) && t in w.flight
    ensures Queued(w, Conclude(w, t))
  {
    CompleteQueues(w, t);
    CompleteKeeps(w, t);
    ReleaseIsSteady(Complete(w, t), t);
  }

  lemma BeginQueues(w: World, t: Id)
    requires Inv(w) && t in w.tasks && t in w.held
    ensures Queued(w, DoBegin(w, t))
  {
    if w.tasks[t].complete {
      PassedIsSteady(w, t);
      ReleaseIsSteady(Passed(w, t), t);
    } else if w.tasks[t].cancelled {
      CancellingKeeps(w, t);
      ConcludeQueues(Cancelling(w, t), t);
    }
  }

  lemma FinishQueues(w: World, o: Output)
    requires Inv(w) && w.stack != [] && Top(w) in w.tasks
    ensures Queued(w, Finish(Resolving(w, o), Top(w)))
  {
    RunningIsListed(w);
    FinishIsConclude(w, o);
    SettledKeeps(w, o);
    ConcludeQueues(Settled(w, o), Top(w));
  }

  lemma EndQueues(w: World, outcome: Outcome)
    requires Inv(w) && w.stack != [] && Top(w) in w.tasks
    ensures Queued(w, DoEnd(w, outcome))
  {
    match outcome
    case Ready => FinishQueues(w, Finished);
    case Panic => FinishQueues(w, Panicked);
    case Pending =>
      if w.tasks[Top(w)].cancelled {
        FinishQueues(w, Cancelled);
      } else {
        WaitingIsSteady(w);
        SuspendIsWaiting(w);
        ReleaseIsSteady(Waiting(w), Top(w));
      }
  }

  lemma WakeValQueues(w: World, t: Id)
    requires Inv(w) && t in w.tasks && t in w.wakers
    ensures Queued(w, DoWakeVal(w, t))
  {
    WakerInFlight(w, t);
    NotifyIsSteady(Lifted(w, t), t);
    ReleaseIsSteady(Notify(Lifted(w, t), t), t);
  }

  lemma PollJoinQueues(w: World, t: Id, k: Waker)
    requires Inv(w) && Enabled(w, PollJoin(t, k))
    ensures Queued(w, DoPollJoin(w, t, k))
  {
    var c := w.tasks[t];
    if !c.complete && c.waker != Some(k) {
      StoredIsSteady(w, t, k);
      if c.waker.Some? && c.waker.value.TaskWaker? {
        ReleaseIsSteady(Stored(w, t, k), c.waker.value.task);
      }
    }
  }

  lemma StepQueues(w: World, op: Op)
    requires Inv(w) && Enabled(w, op) && op != Shutdown
    ensures if op.Next? && w.queue != [] then w.queue[1..] <= Step(w, op).queue else Queued(w, Step(w, op))
  {
    match op
    case Begin(t) => BeginQueues(w, t);
    case End(outcome) => EndQueues(w, outcome);
    case WakeRef(t) => NotifyIsSteady(w, t);
    case WakeVal(t) => WakeValQueues(w, t);
    case DropWaker(t) =>
      WakerInFlight(w, t);
      ReleaseIsSteady(Lifted(w, t), t);
    case PollJoin(t, k) => PollJoinQueues(w, t, k);
    case DropJoin(t) =>
      LettingIsSteady(w, t);
      ReleaseIsSteady(Letting(w, t), t);
    case _ =>
  }

  /** How often the next runnable is popped. */
  function Pops(ops: seq<Op>): nat {
    if ops == [] then 0 else (if ops[0].Next? then 1 else 0) + Pops(ops[1..])
  }

  lemma StillInFront(q: seq<Id>, grown: seq<Id>, n: nat, r: seq<Id>)
    requires q <= grown && n <= |q| && grown[n..] <= r
    ensures q[n..] <= r
  {
    assert forall i :: 0 <= i < |q| - n ==> q[n..][i] == grown[n..][i];
  }

  /** Runnables are popped in the order in which they were queued: whatever else happens,
      short of a shutdown, each pop takes the oldest, and the others keep their order at
      the front of the queue. */
  lemma {:induction false} PoppedInOrder(w: World, ops: seq<Op>)
    requires Inv(w) && Allowed(w, ops) && Shutdown !in ops && Pops(ops) <= |w.queue|
    ensures w.queue[Pops(ops)..] <= Run(w, ops).queue
    decreases |ops|
  {
    if ops == [] {
    } else {
      var w' := Step(w, ops[0]);
      StepKeeps(w, ops[0]);
      StepQueues(w, ops[0]);
      assert Shutdown !in ops[1..];
      var n := Pops(ops[1..]);
      if ops[0].Next? {
        PoppedInOrder(w', ops[1..]);
        StillInFront(w.queue[1..], w'.queue, n, Run(w, ops).queue);
        assert w.queue[1..][n..] == w.queue[n + 1..];
      } else {
        PoppedInOrder(w', ops[1..]);
        StillInFront(w.queue, w'.queue, n, Run(w, ops).queue);
      }
    }
  }
}
