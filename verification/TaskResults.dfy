/** What polls leave: which result a task ends with, and that it waits for the join handle. */
module TaskResults {
  import opened Wrappers
  import opened TaskModel
  import opened TaskInvariant
  import opened TaskSteps
  import opened TaskKeeps
  import opened TaskProgress
  import opened TaskRuns
  import opened TaskAborts

  // ----- starting a poll ------------------------------------------------------------

  /** Running the runnable of an unfinished task starts a poll of it, unless it was aborted: an
      aborted one is done without a poll. The runnable of a complete task starts nothing. */
  lemma RunnableIsPolled(w: World, t: Id)
    requires Inv(w) && t in w.tasks && t in w.held
    ensures var w' := DoBegin(w, t); var c := w.tasks[t];
            if c.complete then w'.stack == w.stack && Polls(w', t) == Polls(w, t)
            else if c.cancelled then w'.stack == w.stack && Polls(w', t) == Polls(w, t) && Done(w', t)
            else && w'.stack == w.stack + [t] && Polls(w', t) == Polls(w, t) + 1
                 && t in w'.tasks && w'.tasks[t] == c.(running := true, notified := false) && HasFuture(w', t)
  {
    assert TaskOk(w, t);
    BeginIsOnward(w, t);
    assert Moves(w, DoBegin(w, t), t);
    if w.tasks[t].complete {
      PassedIsSteady(w, t);
      ReleaseIsSteady(Passed(w, t), t);
    } else if w.tasks[t].cancelled {
      CancellingKeeps(w, t);
      CancellingIsOnward(w, t);
      ConcludeKeepsHolders(Cancelling(w, t), t);
    } else {
      CountOne(w.log, PollStarted(t), PollStarted(t));
    }
  }

  // ----- the end of a poll ----------------------------------------------------------

  /** The result of a task is with its join handle. */
  predicate Ripe(w: World, t: Id, o: Output) {
    t in w.tasks && w.tasks[t].join && w.tasks[t].complete && w.tasks[t].slot == Result(o)
  }

  /** What the outcome of a poll makes of the task. */
  function OutputOf(outcome: Outcome): Output {
    match outcome
    case Ready => Finished
    case Panic => Panicked
    case Pending => Cancelled
  }

  lemma FinishIsRipe(w: World, o: Output)
    requires Inv(w) && w.stack != [] && Top(w) in w.tasks && w.tasks[Top(w)].join
    ensures Ripe(Finish(Resolving(w, o), Top(w)), Top(w), o)
  {
    JoinedFinish(w, o);
    FinishPopsTop(w, o);
    FinishKeeps(w, o);
    assert TaskOk(Finish(Resolving(w, o), Top(w)), Top(w));
  }

  /** A poll that returns for good leaves to the join handle what it returned: its output if it was
      ready, the panic if it panicked. A poll that returns pending leaves a cancellation if the task
      was aborted meanwhile. */
  lemma PollLeavesResult(w: World, outcome: Outcome)
    requires Inv(w) && w.stack != [] && Top(w) in w.tasks && w.tasks[Top(w)].join
    requires outcome == Pending ==> w.tasks[Top(w)].cancelled
    ensures outcome == Outcome.Ready ==> Ripe(DoEnd(w, outcome), Top(w), Finished)
    ensures outcome == Panic ==> Ripe(DoEnd(w, outcome), Top(w), Panicked)
    ensures outcome == Pending ==> Ripe(DoEnd(w, outcome), Top(w), Cancelled)
  {
    FinishIsRipe(w, OutputOf(outcome));
    if outcome == Pending {
      PendingEnds(w);
    }
  }

  lemma WaitingLands(w: World, s: World, t: Id)
    requires t in s.tasks && t in s.list && w.flight == multiset{} && s.flight == w.flight + multiset{t}
    ensures Drop(s, t) == s.(flight := w.flight)
  {
    ListedSurvives(s, t);
    assert s.flight - multiset{t} == w.flight;
  }

  /** A poll of a task that was not aborted and returns pending leaves the future where it is;
      the task is no longer running, and is queued again exactly if it was notified meanwhile. */
  lemma PendingPollWaits(w: World)
    requires Inv(w) && w.stack != [] && Top(w) in w.tasks && !w.tasks[Top(w)].cancelled
    ensures var t := Top(w); var c := w.tasks[t];
            && HasFuture(w, t)
            && DoEnd(w, Pending) == w.(tasks := w.tasks[t := c.(running := false)],
                                       stack := w.stack[..|w.stack| - 1],
                                       queue := if c.notified then w.queue + [t] else w.queue)
  {
    RunningIsListed(w);
    PendingEnds(w);
    SuspendIsWaiting(w);
    WaitingLands(w, Waiting(w), Top(w));
  }

  /** What a poll leaves of a task with a join handle: its output, the panic, the cancellation if
      it was aborted meanwhile, or else its future, no longer running. */
  predicate LeftBehind(cancelled: bool, outcome: Outcome, w': World, t: Id) {
    match outcome
    case Ready => Ripe(w', t, Finished)
    case Panic => Ripe(w', t, Panicked)
    case Pending => if cancelled then Ripe(w', t, Cancelled) else HasFuture(w', t) && !w'.tasks[t].running
  }

  lemma OutcomeIsLeft(w: World, outcome: Outcome)
    requires Inv(w) && w.stack != [] && Top(w) in w.tasks
    ensures w.tasks[Top(w)].join ==> LeftBehind(w.tasks[Top(w)].cancelled, outcome, DoEnd(w, outcome), Top(w))
  {
    if outcome == Pending && !w.tasks[Top(w)].cancelled {
      PendingPollWaits(w);
    } else if w.tasks[Top(w)].join {
      PollLeavesResult(w, outcome);
    }
  }

  // ----- the result waits for the join handle ---------------------------------------

  predicate Joined(w: World, x: Id) {
    x in w.tasks && w.tasks[x].join
  }

  /** A join handle keeps its task, and the result of the task once there is one. */
  predicate Stays(w: World, w': World, x: Id) {
    Joined(w, x) ==>
      && Joined(w', x)
      && (w.tasks[x].complete ==> w'.tasks[x].complete && w'.tasks[x].slot == w.tasks[x].slot)
  }

  lemma {:induction false} ReleaseStays(w: World, t: Id, x: Id)
    requires t in w.tasks && t in w.flight
    ensures Joined(w, x) ==> x in Release(w, t).tasks && Release(w, t).tasks[x] == w.tasks[x]
    decreases |w.tasks|
  {
    if Joined(w, x) && Handles(w, t) == 1 {
      assert t != x;
      match w.tasks[t].waker
      case Some(TaskWaker(u)) =>
        if u in Freed(w, t).tasks {
          ReleaseStays(Freed(w, t), u, x);
        }
      case _ =>
    }
  }

  lemma WakeByStays(w: World, k: Waker, x: Id)
    requires Core(w) && Target(Some(k)) <= w.flight
    ensures Stays(w, WakeBy(w, k), x)
  {
    if k.TaskWaker? {
      InFlightIsThere(w, k.task);
      NotifyIsCalm(w, k.task);
      ReleaseStays(Notify(w, k.task), k.task, x);
    }
  }

  lemma WakeJoinStays(w: World, t: Id, x: Id)
    requires Core(w) && t in w.tasks
    ensures Stays(w, WakeJoin(w, t), x)
  {
    if w.tasks[t].waker.Some? {
      TakeWakerIsCalm(w, t);
      WakeByStays(TakeWaker(w, t), w.tasks[t].waker.value, x);
    }
  }

  lemma UnbindStays(w: World, w': World, t: Id, x: Id)
    requires Halting(w', t) && Stays(w, w', x)
    ensures Stays(w, Unbind(w', t), x)
  {
    assert multiset(w'.list)[t] > 0;
    ReleaseStays(Unlisted(w', t), t, x);
  }

  lemma CompletedStays(w: World, t: Id, x: Id)
    requires Resulted(w, t)
    ensures Stays(w, Completed(w, t), x)
  {
  }

  lemma CompleteStays(w: World, t: Id, x: Id)
    requires Core(w) && LogsOk(w) && OthersOk(w, t) && Resulted(w, t)
    ensures Stays(w, Complete(w, t), x)
  {
    var c := Completed(w, t);
    CompletedIsHalting(w, t);
    CompletedStays(w, t, x);
    if w.tasks[t].join {
      WakeJoinIsCalm(c, t);
      CalmKeepsHalting(c, WakeJoin(c, t), t);
      WakeJoinStays(c, t, x);
      UnbindStays(w, WakeJoin(c, t), t, x);
    } else {
      UnbindStays(w, c, t, x);
    }
  }

  lemma ConcludeStays(w: World, t: Id, x: Id)
    requires Core(w) && LogsOk(w) && OthersOk(w, t) && Resulted(w, t) && t in w.flight
    ensures Stays(w, Conclude(w, t), x)
  {
    CompleteKeeps(w, t);
    CompleteStays(w, t, x);
    InFlightIsThere(Complete(w, t), t);
    ReleaseStays(Complete(w, t), t, x);
  }

  lemma StaysThen(w: World, s: World, w': World, x: Id)
    requires Stays(w, s, x) && Stays(s, w', x)
    ensures Stays(w, w', x)
  {
  }

  lemma CancellingStays(w: World, t: Id, x: Id)
    requires t in w.tasks && !w.tasks[t].complete
    ensures Stays(w, Cancelling(w, t), x)
  {
  }

  lemma BeginStays(w: World, t: Id, x: Id)
    requires Inv(w) && t in w.tasks && t in w.held
    ensures Stays(w, DoBegin(w, t), x)
  {
    if w.tasks[t].complete {
      ReleaseStays(Passed(w, t), t, x);
    } else if w.tasks[t].cancelled {
      CancellingKeeps(w, t);
      CancellingStays(w, t, x);
      ConcludeStays(Cancelling(w, t), t, x);
      StaysThen(w, Cancelling(w, t), Conclude(Cancelling(w, t), t), x);
    } else {
      assert Stays(w, Polling(w, t), x);
    }
  }

  lemma SettledStays(w: World, o: Output, x: Id)
    requires w.stack != [] && Top(w) in w.tasks && !w.tasks[Top(w)].complete
    ensures Stays(w, Settled(w, o), x)
  {
  }

  lemma FinishStays(w: World, o: Output, x: Id)
    requires Inv(w) && w.stack != [] && Top(w) in w.tasks
    ensures Stays(w, Finish(Resolving(w, o), Top(w)), x)
  {
    RunningIsListed(w);
    FinishIsConclude(w, o);
    SettledKeeps(w, o);
    SettledStays(w, o, x);
    ConcludeStays(Settled(w, o), Top(w), x);
    StaysThen(w, Settled(w, o), Conclude(Settled(w, o), Top(w)), x);
  }

  lemma EndStays(w: World, outcome: Outcome, x: Id)
    requires Inv(w) && w.stack != [] && Top(w) in w.tasks
    ensures Stays(w, DoEnd(w, outcome), x)
  {
    if outcome == Pending && !w.tasks[Top(w)].cancelled {
      PendingPollWaits(w);
    } else {
      FinishStays(w, OutputOf(outcome), x);
    }
  }

  /** A poll of the join handle that stores a waker drops the one it replaces. */
  lemma PollJoinReplaces(w: World, t: Id, k: Waker) returns (s: World, u: Option<Id>)
    requires Inv(w) && Enabled(w, PollJoin(t, k)) && !w.tasks[t].complete
    ensures Steady(s) && (s == w || s == Stored(w, t, k))
    ensures if u.None? then DoPollJoin(w, t, k) == s
            else u.value in s.flight && u.value in s.tasks && DoPollJoin(w, t, k) == Release(s, u.value)
  {
    var c := w.tasks[t];
    s, u := w, None;
    if c.waker != Some(k) {
      StoredIsSteady(w, t, k);
      s := Stored(w, t, k);
      if c.waker.Some? && c.waker.value.TaskWaker? {
        u := Some(c.waker.value.task);
        InFlightIsThere(s, c.waker.value.task);
      }
    }
  }

  lemma PollJoinStays(w: World, t: Id, k: Waker, x: Id)
    requires Inv(w) && Enabled(w, PollJoin(t, k)) && t != x
    ensures Stays(w, DoPollJoin(w, t, k), x)
  {
    if !w.tasks[t].complete {
      var s, u := PollJoinReplaces(w, t, k);
      assert Stays(w, s, x);
      if u.Some? {
        ReleaseStays(s, u.value, x);
      }
    }
  }

  lemma CancelFirstStays(w: World, x: Id)
    requires Steady(w) && w.stack == [] && w.list != []
    ensures Stays(w, CancelFirst(w), x)
  {
    ListedIsThere(w);
    ReleaseStays(ShutFirst(w), w.list[0], x);
  }

  lemma {:induction false} CancelAllStays(w: World, x: Id)
    requires Steady(w) && w.stack == [] && w.flight == multiset{}
    ensures Stays(w, CancelAll(w), x)
    decreases |w.list|
  {
    if w.list != [] {
      CancelFirstKeeps(w);
      CancelFirstStays(w, x);
      CancelAllStays(CancelFirst(w), x);
    }
  }

  lemma {:induction false} DropQueueStays(w: World, x: Id)
    requires Steady(w) && w.list == [] && w.flight == multiset{}
    ensures Stays(w, DropQueue(w), x)
    decreases |w.queue|
  {
    if w.queue != [] {
      UnqueuedKeeps(w);
      ReleaseIsSteady(Unqueued(w), w.queue[0]);
      ReleaseStays(Unqueued(w), w.queue[0], x);
      DropQueueStays(DropFirst(w), x);
    }
  }

  lemma ShutdownStays(w: World, x: Id)
    requires Inv(w) && w.stack == []
    ensures Stays(w, DoShutdown(w), x)
  {
    var shut := w.(closed := true);
    ClosedIsSteady(w);
    CancelAllKeeps(shut);
    CancelAllStays(shut, x);
    DropQueueStays(CancelAll(shut), x);
  }

  lemma WakerStays(w: World, t: Id, x: Id)
    requires Inv(w) && t in w.wakers && t in w.tasks
    ensures Stays(w, DoWakeVal(w, t), x) && Stays(w, DoDropWaker(w, t), x)
  {
    ReleaseStays(Notify(Lifted(w, t), t), t, x);
    ReleaseStays(Lifted(w, t), t, x);
  }

  lemma SpawnStays(w: World, x: Id)
    requires Core(w)
    ensures Stays(w, DoSpawn(w), x)
  {
    assert w.next !in w.tasks;
  }

  lemma DropJoinStays(w: World, t: Id, x: Id)
    requires t in w.tasks && t != x
    ensures Stays(w, DoDropJoin(w, t), x)
  {
    ReleaseStays(Letting(w, t), t, x);
  }

  lemma PlainStays(w: World, op: Op, x: Id)
    requires Enabled(w, op) && (op.Next? || op.WakeRef? || op.CloneWaker? || op.Abort?)
    ensures Stays(w, Step(w, op), x)
  {
  }

  /** The join handle is neither polled nor dropped. */
  predicate Untouched(op: Op, x: Id) {
    op != DropJoin(x) && !(op.PollJoin? && op.t == x)
  }

  lemma StepStays(w: World, op: Op, x: Id)
    requires Inv(w) && Enabled(w, op) && Untouched(op, x)
    ensures Stays(w, Step(w, op), x)
  {
    match op
    case Spawn => SpawnStays(w, x);
    case Begin(t) => BeginStays(w, t, x);
    case End(outcome) => EndStays(w, outcome, x);
    case WakeVal(t) => WakerStays(w, t, x);
    case DropWaker(t) => WakerStays(w, t, x);
    case PollJoin(t, k) => PollJoinStays(w, t, k, x);
    case DropJoin(t) => DropJoinStays(w, t, x);
    case Shutdown => ShutdownStays(w, x);
    case _ => PlainStays(w, op, x);
  }

  lemma {:induction false} ResultWaits(w: World, ops: seq<Op>, t: Id, o: Output)
    requires Inv(w) && Allowed(w, ops) && Ripe(w, t, o)
    requires forall op :: op in ops ==> Untouched(op, t)
    ensures Ripe(Run(w, ops), t, o)
    decreases |ops|
  {
    if ops != [] {
      StepKeeps(w, ops[0]);
      StepStays(w, ops[0], t);
      ResultWaits(Step(w, ops[0]), ops[1..], t, o);
    }
  }

  /** What a poll returned reaches the join handle: whatever follows, a shutdown included, the
      result is there for the next poll of the join handle. */
  lemma OutputReachesJoiner(w: World, outcome: Outcome, ops: seq<Op>)
    requires Inv(w) && w.stack != [] && Top(w) in w.tasks && w.tasks[Top(w)].join
    requires outcome == Pending ==> w.tasks[Top(w)].cancelled
    requires Allowed(DoEnd(w, outcome), ops) && forall op :: op in ops ==> Untouched(op, Top(w))
    ensures var w' := Run(DoEnd(w, outcome), ops);
            && (outcome == Outcome.Ready ==> Ripe(w', Top(w), Finished))
            && (outcome == Panic ==> Ripe(w', Top(w), Panicked))
            && (outcome == Pending ==> Ripe(w', Top(w), Cancelled))
  {
    PollLeavesResult(w, outcome);
    EndKeeps(w, outcome);
    ResultWaits(DoEnd(w, outcome), ops, Top(w), OutputOf(outcome));
  }

  // ----- without a join handle ------------------------------------------------------

  lemma UnjoinedDiscards(w: World, t: Id)
    requires Core(w) && LogsOk(w) && OthersOk(w, t) && Resulted(w, t) && !w.tasks[t].join && t in w.flight
    ensures Count(Conclude(w, t).log, Discarded(t)) > 0
  {
    var c := Completed(w, t);
    CompletedIsHalting(w, t);
    CountOne(w.log, Discarded(t), Discarded(t));
    assert multiset(c.list)[t] > 0;
    UnlistedIsSteady(c, t);
    ReleaseIsSteady(Unlisted(c, t), t);
    CompleteKeeps(w, t);
    ReleaseIsSteady(Complete(w, t), t);
  }

  lemma OnceDiscarded(w: World, t: Id)
    requires LogsOk(w) && Count(w.log, Discarded(t)) > 0
    ensures !HasResult(w, t) && !HasFuture(w, t)
    ensures Count(w.log, Discarded(t)) == 1 && Count(w.log, Delivered(t)) == 0
  {
    assert LogOk(w, t);
  }

  /** A poll that returns for good after the join handle was dropped: the output is dropped at
      once, also when the cell lives on. */
  lemma PollDiscardsOutput(w: World, outcome: Outcome)
    requires Inv(w) && w.stack != [] && Top(w) in w.tasks && !w.tasks[Top(w)].join
    requires outcome == Pending ==> w.tasks[Top(w)].cancelled
    ensures var w' := DoEnd(w, outcome);
            && !HasResult(w', Top(w)) && !HasFuture(w', Top(w))
            && Count(w.log, Discarded(Top(w))) == 0 && Count(w'.log, Discarded(Top(w))) == 1
            && Count(w'.log, Delivered(Top(w))) == 0
  {
    EndKeeps(w, outcome);
    RunningIsListed(w);
    NotDiscardedYet(w, Top(w));
    EndDiscards(w, outcome);
    OnceDiscarded(DoEnd(w, outcome), Top(w));
  }

  lemma NotDiscardedYet(w: World, t: Id)
    requires LogsOk(w) && t in w.tasks && TaskOk(w, t) && w.tasks[t].running
    ensures Count(w.log, Discarded(t)) == 0
  {
    assert LogOk(w, t);
  }

  lemma EndDiscards(w: World, outcome: Outcome)
    requires Inv(w) && w.stack != [] && Top(w) in w.tasks && !w.tasks[Top(w)].join
    requires outcome == Pending ==> w.tasks[Top(w)].cancelled
    ensures Count(DoEnd(w, outcome).log, Discarded(Top(w))) > 0
  {
    FinishDiscards(w, OutputOf(outcome));
    if outcome == Pending {
      PendingEnds(w);
    }
  }

  lemma FinishDiscards(w: World, o: Output)
    requires Inv(w) && w.stack != [] && Top(w) in w.tasks && !w.tasks[Top(w)].join
    ensures Count(Finish(Resolving(w, o), Top(w)).log, Discarded(Top(w))) > 0
  {
    RunningIsListed(w);
    FinishIsConclude(w, o);
    SettledKeeps(w, o);
    UnjoinedDiscards(Settled(w, o), Top(w));
  }

  /** Dropping the join handle drops one handle: the cell is freed exactly if it was the last. */
  lemma DropJoinLetsGo(w: World, t: Id)
    requires Inv(w) && Enabled(w, DropJoin(t))
    ensures var w' := DoDropJoin(w, t);
            && (t in w'.tasks <==> Handles(w, t) > 1)
            && (t in w'.tasks ==> w'.tasks[t] == w.tasks[t].(join := false))
  {
    var s := Letting(w, t);
    LettingIsSteady(w, t);
    assert Handles(s, t) == Handles(w, t);
    ReleaseKeeps(s, t);
    if Handles(w, t) == 1 {
      LastIsFreed(s, t);
    }
  }

  lemma LastIsFreed(w: World, t: Id)
    requires Core(w) && t in w.flight && t in w.tasks && Handles(w, t) == 1
    ensures t !in Release(w, t).tasks
  {
    LastHandle(w, t);
    match w.tasks[t].waker
    case Some(TaskWaker(u)) =>
      InFlightIsThere(Freed(w, t), u);
      LastReleases(w, t, u);
      ReleaseAddsNone(Freed(w, t), u, t);
    case _ =>
  }

  lemma LastReleases(w: World, t: Id, u: Id)
    requires t in w.tasks && Handles(w, t) == 1 && w.tasks[t].waker == Some(TaskWaker(u)) && u in Freed(w, t).tasks
    ensures Release(w, t) == Release(Freed(w, t), u)
  {
  }

  lemma ReleaseAddsNone(w: World, u: Id, t: Id)
    requires Core(w) && u in w.flight && t !in w.tasks
    ensures u in w.tasks && t !in Release(w, u).tasks
  {
    ReleaseKeeps(w, u);
  }

  /** Nothing is queued, no task is marked. */
  ghost predicate Silent(w: World, w': World) {
    && w'.queue == w.queue
    && (forall x :: x in w'.tasks ==> x in w.tasks && w'.tasks[x].notified == w.tasks[x].notified)
  }

  lemma ReleaseIsSilent(w: World, s: World, t: Id)
    requires Core(s) && t in s.flight && Silent(w, s)
    ensures t in s.tasks && Silent(w, Release(s, t))
  {
    ReleaseKeeps(s, t);
  }

  lemma StoredIsSilent(w: World, t: Id, k: Waker)
    requires t in w.tasks
    ensures Silent(w, w) && Silent(w, Stored(w, t, k))
  {
  }

  lemma PollJoinIsSilent(w: World, t: Id, k: Waker)
    requires Inv(w) && Enabled(w, PollJoin(t, k))
    ensures Silent(w, DoPollJoin(w, t, k))
  {
    if !w.tasks[t].complete {
      StoredIsSilent(w, t, k);
      var s, u := PollJoinReplaces(w, t, k);
      if u.Some? {
        ReleaseIsSilent(w, s, u.value);
      }
    }
  }

  lemma DropWakerIsSilent(w: World, t: Id)
    requires Inv(w) && t in w.wakers && t in w.tasks
    ensures Silent(w, DoDropWaker(w, t))
  {
    WakerInFlight(w, t);
    ReleaseIsSilent(w, Lifted(w, t), t);
  }

  lemma DropJoinIsSilent(w: World, t: Id)
    requires Inv(w) && t in w.tasks && w.tasks[t].join
    ensures Silent(w, DoDropJoin(w, t))
  {
    LettingIsSteady(w, t);
    ReleaseIsSilent(w, Letting(w, t), t);
  }

  /** Handing handles around wakes nobody: nothing is queued, no task is marked. */
  lemma HandlesWakeNobody(w: World, op: Op)
    requires Inv(w) && Enabled(w, op) && (op.CloneWaker? || op.DropWaker? || op.PollJoin? || op.DropJoin?)
    ensures Silent(w, Step(w, op))
  {
    match op
    case DropWaker(t) => DropWakerIsSilent(w, t);
    case DropJoin(t) => DropJoinIsSilent(w, t);
    case PollJoin(t, k) => PollJoinIsSilent(w, t, k);
    case CloneWaker(t) =>
  }
}
