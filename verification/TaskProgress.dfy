/** What every step of the task system respects: resolved tasks stay resolved, aborted tasks
    are not polled again, freed cells stay freed, and a poll that is owed is not forgotten. */
module TaskProgress {
  import opened Wrappers
  import opened TaskModel
  import opened TaskInvariant
  import opened TaskSteps
  import opened TaskKeeps

  /** How often a poll of the task was started. */
  function Polls(w: World, x: Id): nat {
    Count(w.log, PollStarted(x))
  }

  /** The task exists or existed, and its future is gone. */
  predicate Done(w: World, x: Id) {
    x < w.next && !HasFuture(w, x)
  }

  predicate Gone(w: World, x: Id) {
    x < w.next && x !in w.tasks
  }

  /** No poll of the task may start any more. */
  predicate Stopped(w: World, x: Id) {
    x < w.next && (HasFuture(w, x) ==> w.tasks[x].cancelled)
  }

  /** The task can only end by being cancelled. */
  predicate Doomed(w: World, x: Id) {
    && x < w.next
    && (x in w.tasks ==>
          var c := w.tasks[x];
          && c.cancelled && (c.slot == Future ==> !c.running)
          && (c.slot == Future || c.slot == Result(Cancelled) || c.slot == Empty))
  }

  /** A poll of the task is owed. */
  predicate Owed(w: World, x: Id) {
    HasFuture(w, x) && w.tasks[x].notified
  }

  predicate Moves(w: World, w': World, x: Id) {
    && (Gone(w, x) ==> Gone(w', x))
    && (Done(w, x) ==> Done(w', x))
    && (Stopped(w, x) ==> Stopped(w', x) && Polls(w', x) == Polls(w, x))
    && (Doomed(w, x) ==> Doomed(w', x))
    && (Owed(w, x) ==> Owed(w', x) || Done(w', x) || Polls(w', x) > Polls(w, x))
  }

  ghost predicate Onward(w: World, w': World) {
    && w'.next >= w.next && (w.closed ==> w'.closed)
    && (forall e: Event :: Count(w'.log, e) >= Count(w.log, e))
    && (forall x :: Moves(w, w', x))
  }

  lemma OnwardTransitive(a: World, b: World, c: World)
    requires Onward(a, b) && Onward(b, c)
    ensures Onward(a, c)
  {
    forall x ensures Moves(a, c, x) {
      assert Moves(a, b, x) && Moves(b, c, x);
    }
  }

  lemma CalmIsOnward(w: World, w': World)
    requires Core(w) && Calm(w, w')
    ensures Onward(w, w')
  {
  }

  /** A change of one cell, the log growing by at most one event. */
  lemma OneCellIsOnward(w: World, w': World, t: Id, es: seq<Event>)
    requires OneCell(w, w', t) && t < w.next && Moves(w, w', t)
    requires w'.closed == w.closed && w'.log == w.log + es
    requires |es| <= 1 && (forall e :: e in es && e.PollStarted? ==> e.t == t)
    ensures Onward(w, w')
  {
    forall e: Event ensures Count(w'.log, e) == Count(w.log, e) + multiset(es)[e] {
    }
    forall x ensures Moves(w, w', x) {
    }
  }

  lemma UnlistedIsOnward(w: World, t: Id)
    requires Core(w)
    ensures Onward(w, Unlisted(w, t))
  {
  }

  lemma SpawnIsOnward(w: World)
    requires Core(w)
    ensures Onward(w, DoSpawn(w))
  {
    forall e: Event
      ensures Count(w.log + [Resolved(w.next)], e) == Count(w.log, e) + if e == Resolved(w.next) then 1 else 0
    {
      CountOne(w.log, Resolved(w.next), e);
    }
    forall x ensures Moves(w, DoSpawn(w), x) {
    }
  }

  /** A handle changes hands. */
  lemma HandedOnIsOnward(w: World, w': World)
    requires Core(w) && w'.tasks == w.tasks && w'.next == w.next && w'.log == w.log
    requires w.closed ==> w'.closed
    ensures Onward(w, w')
  {
  }

  lemma ReleaseIsOnward(w: World, w': World, t: Id)
    requires Steady(w') && Onward(w, w') && t in w'.flight
    ensures t in w'.tasks && Onward(w, Release(w', t))
  {
    ReleaseIsSteady(w', t);
    CalmIsOnward(w', Release(w', t));
    OnwardTransitive(w, w', Release(w', t));
  }

  lemma NotifyIsOnward(w: World, t: Id)
    requires Steady(w) && t in w.tasks
    ensures Onward(w, Notify(w, t)) && (Owed(Notify(w, t), t) || Done(Notify(w, t), t))
  {
    assert TaskOk(w, t);
    NotifyIsSteady(w, t);
    CalmIsOnward(w, Notify(w, t));
  }

  /** After a wake the task is owed a poll, or it is done. */
  lemma WakeValIsOnward(w: World, t: Id)
    requires Inv(w) && t in w.wakers && t in w.tasks
    ensures Onward(w, DoWakeVal(w, t)) && (Owed(DoWakeVal(w, t), t) || Done(DoWakeVal(w, t), t))
  {
    var w' := Lifted(w, t);
    WakerInFlight(w, t);
    HandedOnIsOnward(w, w');
    NotifyIsSteady(w', t);
    NotifyIsOnward(w', t);
    ReleaseIsSteady(Notify(w', t), t);
    CalmIsOnward(Notify(w', t), DoWakeVal(w, t));
    OnwardTransitive(w', Notify(w', t), DoWakeVal(w, t));
    OnwardTransitive(w, w', DoWakeVal(w, t));
  }

  lemma DropWakerIsOnward(w: World, t: Id)
    requires Inv(w) && t in w.wakers && t in w.tasks
    ensures Onward(w, DoDropWaker(w, t))
  {
    var w' := Lifted(w, t);
    WakerInFlight(w, t);
    HandedOnIsOnward(w, w');
    ReleaseIsOnward(w, w', t);
  }

  lemma LettingIsOnward(w: World, t: Id)
    requires Core(w) && t in w.tasks && w.tasks[t].join
    ensures Onward(w, Letting(w, t))
  {
    LettingIsOneCell(w, t);
    OneCellIsOnward(w, Letting(w, t), t, []);
  }

  lemma DropJoinIsOnward(w: World, t: Id)
    requires Inv(w) && t in w.tasks && w.tasks[t].join
    ensures Onward(w, DoDropJoin(w, t))
  {
    LettingIsSteady(w, t);
    LettingIsOnward(w, t);
    ReleaseIsOnward(w, Letting(w, t), t);
  }

  lemma AbortIsOnward(w: World, t: Id)
    requires Inv(w) && t in w.tasks && w.tasks[t].join
    ensures Onward(w, DoAbort(w, t)) && Stopped(DoAbort(w, t), t)
    ensures Owed(DoAbort(w, t), t) || Done(DoAbort(w, t), t)
    ensures HasFuture(w, t) && !w.tasks[t].running ==> Doomed(DoAbort(w, t), t)
  {
    assert TaskOk(w, t);
    AbortIsOneCell(w, t);
    OneCellIsOnward(w, DoAbort(w, t), t, []);
  }

  lemma ClaimIsOnward(w: World, t: Id, k: Waker)
    requires Core(w) && t in w.tasks && TaskOk(w, t) && w.tasks[t].complete
    ensures Onward(w, DoPollJoin(w, t, k))
  {
    ClaimIsOneCell(w, t, k);
    OneCellIsOnward(w, DoPollJoin(w, t, k), t, [Delivered(t)]);
  }

  lemma PollJoinIsOnward(w: World, t: Id, k: Waker)
    requires Inv(w) && Enabled(w, PollJoin(t, k))
    ensures Onward(w, DoPollJoin(w, t, k))
  {
    var c := w.tasks[t];
    assert TaskOk(w, t);
    if c.complete {
      ClaimIsOnward(w, t, k);
    } else if c.waker == Some(k) {
      HandedOnIsOnward(w, w);
    } else {
      StoredIsSteady(w, t, k);
      StoredIsOnward(w, t, k);
      if c.waker.Some? && c.waker.value.TaskWaker? {
        ReleaseIsOnward(w, Stored(w, t, k), c.waker.value.task);
      }
    }
  }

  lemma StoredIsOnward(w: World, t: Id, k: Waker)
    requires Core(w) && t in w.tasks
    ensures Onward(w, Stored(w, t, k))
  {
    forall x ensures Moves(w, Stored(w, t, k), x) {
    }
  }

  // ----- completion -----------------------------------------------------------------

  lemma CompletedIsOnward(w: World, t: Id)
    requires Core(w) && Resulted(w, t)
    ensures Onward(w, Completed(w, t))
  {
    CompletedIsOneCell(w, t);
    OneCellIsOnward(w, Completed(w, t), t, if w.tasks[t].join then [] else [Discarded(t)]);
  }

  lemma UnbindIsOnward(w: World, w': World, t: Id)
    requires Halting(w', t) && Onward(w, w')
    ensures Onward(w, Unbind(w', t))
  {
    assert multiset(w'.list)[t] > 0;
    UnlistedIsSteady(w', t);
    UnlistedIsOnward(w', t);
    OnwardTransitive(w, w', Unlisted(w', t));
    ReleaseIsOnward(w, Unlisted(w', t), t);
  }

  lemma CompleteIsOnward(w: World, t: Id)
    requires Core(w) && LogsOk(w) && OthersOk(w, t) && Resulted(w, t)
    ensures Onward(w, Complete(w, t))
  {
    var c := Completed(w, t);
    CompletedIsHalting(w, t);
    CompletedIsOnward(w, t);
    if w.tasks[t].join {
      WakeJoinIsCalm(c, t);
      CalmKeepsHalting(c, WakeJoin(c, t), t);
      CalmIsOnward(c, WakeJoin(c, t));
      OnwardTransitive(w, c, WakeJoin(c, t));
      UnbindIsOnward(w, WakeJoin(c, t), t);
    } else {
      UnbindIsOnward(w, c, t);
    }
  }

  lemma ConcludeIsOnward(w: World, t: Id)
    requires Core(w) && LogsOk(w) && OthersOk(w, t) && Resulted(w, t) && t in w.flight
    ensures Onward(w, Conclude(w, t))
  {
    CompleteKeeps(w, t);
    CompleteIsOnward(w, t);
    ReleaseIsOnward(w, Complete(w, t), t);
  }

  // ----- running --------------------------------------------------------------------

  lemma PassedIsOnward(w: World, t: Id)
    requires Inv(w) && t in w.tasks && t in w.held && w.tasks[t].complete
    ensures Onward(w, DoBegin(w, t))
  {
    PassedIsSteady(w, t);
    HandedOnIsOnward(w, Passed(w, t));
    ReleaseIsOnward(w, Passed(w, t), t);
  }

  lemma CancellingStarts(w: World, t: Id)
    requires Inv(w) && t in w.tasks && t in w.held && !w.tasks[t].complete && w.tasks[t].cancelled
    ensures Onward(w, Cancelling(w, t))
  {
    assert TaskOk(w, t);
    CancellingIsOneCell(w, t);
    OneCellIsOnward(w, Cancelling(w, t), t, [Resolved(t)]);
  }

  lemma CancellingIsOnward(w: World, t: Id)
    requires Inv(w) && t in w.tasks && t in w.held && !w.tasks[t].complete && w.tasks[t].cancelled
    ensures Onward(w, Conclude(Cancelling(w, t), t)) && Done(Conclude(Cancelling(w, t), t), t)
  {
    CancellingKeeps(w, t);
    CancellingStarts(w, t);
    FinishedIsOnward(w, Cancelling(w, t), t);
  }

  lemma PollingIsOnward(w: World, t: Id)
    requires Inv(w) && t in w.tasks && t in w.held && !w.tasks[t].complete && !w.tasks[t].cancelled
    ensures Onward(w, Polling(w, t))
  {
    assert TaskOk(w, t);
    PollingIsOneCell(w, t);
    CountOne(w.log, PollStarted(t), PollStarted(t));
    OneCellIsOnward(w, Polling(w, t), t, [PollStarted(t)]);
  }

  lemma WaitingMoves(w: World)
    requires w.stack != [] && Top(w) in w.tasks && !w.tasks[Top(w)].cancelled && Top(w) < w.next
    ensures Moves(w, Waiting(w), Top(w)) && Waiting(w).log == w.log + []
  {
  }

  lemma WaitingIsOnward(w: World)
    requires Inv(w) && w.stack != [] && Top(w) in w.tasks && !w.tasks[Top(w)].cancelled
    ensures Onward(w, Waiting(w))
  {
    RunningIsListed(w);
    WaitingIsOneCell(w);
    WaitingMoves(w);
    OneCellIsOnward(w, Waiting(w), Top(w), []);
  }

  lemma SuspendIsOnward(w: World)
    requires Inv(w) && w.stack != [] && Top(w) in w.tasks && !w.tasks[Top(w)].cancelled
    ensures Onward(w, Suspend(Suspended(w), Top(w)))
  {
    WaitingIsSteady(w);
    WaitingIsOnward(w);
    SuspendIsWaiting(w);
    ReleaseIsOnward(w, Waiting(w), Top(w));
  }

  lemma SettledIsOnward(w: World, o: Output)
    requires Inv(w) && w.stack != [] && Top(w) in w.tasks
    ensures Onward(w, Settled(w, o)) && Done(Settled(w, o), Top(w))
    ensures o == Cancelled && w.tasks[Top(w)].cancelled ==> Doomed(Settled(w, o), Top(w))
  {
    RunningIsListed(w);
    SettledIsOneCell(w, o);
    OneCellIsOnward(w, Settled(w, o), Top(w), [Resolved(Top(w))]);
  }

  lemma FinishIsOnward(w: World, o: Output)
    requires Inv(w) && w.stack != [] && Top(w) in w.tasks
    ensures var w' := Finish(Resolving(w, o), Top(w));
            && Onward(w, w') && Done(w', Top(w))
            && (o == Cancelled && w.tasks[Top(w)].cancelled ==> Doomed(w', Top(w)))
  {
    SettledKeeps(w, o);
    SettledIsOnward(w, o);
    RunningIsListed(w);
    FinishIsConclude(w, o);
    FinishedIsOnward(w, Settled(w, o), Top(w));
  }

  lemma FinishedIsOnward(w: World, s: World, t: Id)
    requires Core(s) && LogsOk(s) && OthersOk(s, t) && Resulted(s, t) && t in s.flight && Onward(w, s)
    ensures Onward(w, Conclude(s, t)) && Done(Conclude(s, t), t)
    ensures Doomed(s, t) ==> Doomed(Conclude(s, t), t)
  {
    ConcludeIsOnward(s, t);
    OnwardTransitive(w, s, Conclude(s, t));
    assert Done(s, t) && Moves(s, Conclude(s, t), t);
  }

  lemma EndIsOnward(w: World, outcome: Outcome)
    requires Inv(w) && w.stack != [] && Top(w) in w.tasks
    ensures Onward(w, DoEnd(w, outcome))
  {
    match outcome
    case Ready => FinishIsOnward(w, Finished);
    case Panic => FinishIsOnward(w, Panicked);
    case Pending =>
      if w.tasks[Top(w)].cancelled {
        FinishIsOnward(w, Cancelled);
      } else {
        SuspendIsOnward(w);
      }
  }

  // ----- shutting down --------------------------------------------------------------

  lemma ShutFirstIsOnward(w: World)
    requires Steady(w) && w.stack == [] && w.list != [] && w.list[0] in w.tasks
    ensures Onward(w, ShutFirst(w))
  {
    var t := w.list[0];
    assert TaskOk(w, t);
    ShutFirstIsOneCell(w);
    ShutFirstIsOk(w);
    OneCellIsOnward(w, ShutFirst(w), t, [Resolved(t)]);
  }

  lemma {:induction false} CancelAllIsOnward(w: World, s: World)
    requires Steady(s) && s.stack == [] && s.flight == multiset{} && Onward(w, s)
    ensures Onward(w, CancelAll(s))
    decreases |s.list|
  {
    if s.list != [] {
      ListedIsThere(s);
      ShutFirstKeeps(s);
      ReleaseIsSteady(ShutFirst(s), s.list[0]);
      ShutFirstIsOnward(s);
      OnwardTransitive(w, s, ShutFirst(s));
      ReleaseIsOnward(w, ShutFirst(s), s.list[0]);
      CancelAllIsOnward(w, CancelFirst(s));
    }
  }

  lemma {:induction false} DropQueueIsOnward(w: World, s: World)
    requires Steady(s) && s.list == [] && s.flight == multiset{} && Onward(w, s)
    ensures Onward(w, DropQueue(s))
    decreases |s.queue|
  {
    if s.queue != [] {
      UnqueuedKeeps(s);
      HandedOnIsOnward(s, Unqueued(s));
      OnwardTransitive(w, s, Unqueued(s));
      ReleaseIsSteady(Unqueued(s), s.queue[0]);
      ReleaseIsOnward(w, Unqueued(s), s.queue[0]);
      DropQueueIsOnward(w, DropFirst(s));
    }
  }

  lemma ShutdownIsOnward(w: World)
    requires Inv(w) && w.stack == []
    ensures Onward(w, DoShutdown(w))
  {
    var shut := w.(closed := true);
    ClosedIsSteady(w);
    HandedOnIsOnward(w, shut);
    CancelAllKeeps(shut);
    CancelAllIsOnward(w, shut);
    DropQueueIsOnward(w, CancelAll(shut));
  }

  lemma BeginIsOnward(w: World, t: Id)
    requires Inv(w) && t in w.tasks && t in w.held
    ensures Onward(w, DoBegin(w, t))
  {
    if w.tasks[t].complete {
      PassedIsOnward(w, t);
    } else if w.tasks[t].cancelled {
      CancellingIsOnward(w, t);
    } else {
      PollingIsOnward(w, t);
    }
  }

  lemma NextIsOnward(w: World)
    requires Inv(w)
    ensures Onward(w, DoNext(w))
  {
    HandedOnIsOnward(w, DoNext(w));
  }

  lemma StepIsOnward(w: World, op: Op)
    requires Inv(w) && Enabled(w, op)
    ensures Onward(w, Step(w, op))
  {
    match op
    case Spawn => SpawnIsOnward(w);
    case Next => NextIsOnward(w);
    case Begin(t) => BeginIsOnward(w, t);
    case End(outcome) => EndIsOnward(w, outcome);
    case WakeRef(t) => NotifyIsOnward(w, t);
    case WakeVal(t) => WakeValIsOnward(w, t);
    case CloneWaker(t) => HandedOnIsOnward(w, w.(wakers := w.wakers + multiset{t}));
    case DropWaker(t) => DropWakerIsOnward(w, t);
    case Abort(t) => AbortIsOnward(w, t);
    case PollJoin(t, k) => PollJoinIsOnward(w, t, k);
    case DropJoin(t) => DropJoinIsOnward(w, t);
    case Shutdown => ShutdownIsOnward(w);
  }
}
