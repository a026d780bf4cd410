/** Spawning, running, joining and shutting down keep the invariant of the task system. */
module TaskKeeps {
  import opened Bags
  import opened Wrappers
  import opened TaskModel
  import opened TaskInvariant
  import opened TaskSteps

  // ----- changing one cell ----------------------------------------------------------

  /** A change of one cell that keeps its waker: the other tasks are as before. */
  ghost predicate OneCell(w: World, w': World, t: Id) {
    && t in w.tasks && t in w'.tasks
    && w'.tasks == w.tasks[t := w'.tasks[t]] && w'.tasks[t].waker == w.tasks[t].waker
    && w'.stored == w.stored && w'.next == w.next
    && (forall x :: Handles(w', x) > 0 <==> Handles(w, x) > 0)
    && (forall x :: x != t ==> SameElsewhere(w, w', x))
  }

  predicate SameElsewhere(w: World, w': World, x: Id) {
    && Runnables(w', x) == Runnables(w, x) && multiset(w'.stack)[x] == multiset(w.stack)[x]
    && multiset(w'.list)[x] == multiset(w.list)[x] && (x in w'.claimed <==> x in w.claimed)
  }

  lemma OneCellIsCore(w: World, w': World, t: Id)
    requires Core(w) && OneCell(w, w', t)
    requires HasFuture(w', t) ==> HasFuture(w, t) && t in w'.list
    ensures Core(w')
  {
    PutKeepsStored(w, t, w'.tasks[t]);
    forall x | HasFuture(w', x) ensures x in w'.list {
      assert HasFuture(w, x);
      assert x != t ==> SameElsewhere(w, w', x);
      assert multiset(w.list)[x] > 0;
    }
    forall x | x in w'.tasks || x in w'.claimed ensures x < w'.next {
      assert x != t ==> SameElsewhere(w, w', x);
    }
  }

  lemma OneCellKeepsOthers(w: World, w': World, t: Id, x: Id)
    requires OneCell(w, w', t) && x in w'.tasks && x != t && TaskOk(w, x)
    ensures TaskOk(w', x)
  {
    assert SameElsewhere(w, w', x);
  }

  lemma OneCellIsSteady(w: World, w': World, t: Id)
    requires Steady(w) && OneCell(w, w', t) && TaskOk(w', t) && LogsOk(w')
    requires w'.list == w.list
    requires HasFuture(w', t) ==> HasFuture(w, t)
    ensures Steady(w')
  {
    OneCellIsCore(w, w', t);
    forall x | x in w'.tasks ensures TaskOk(w', x) {
      if x != t {
        OneCellKeepsOthers(w, w', t, x);
      }
    }
  }

  /** A result gives way, delivered or discarded. */
  lemma ResultGone(w: World, w': World, t: Id, e: Event)
    requires LogsOk(w) && HasResult(w, t) && (e == Delivered(t) || e == Discarded(t))
    requires t in w'.tasks && w'.tasks == w.tasks[t := w'.tasks[t]] && w'.tasks[t].slot.Empty?
    requires w'.next == w.next && w'.log == w.log + [e]
    ensures LogsOk(w')
  {
    forall x ensures LogOk(w', x) {
      assert LogOk(w, x);
      CountOne(w.log, e, Resolved(x));
      CountOne(w.log, e, Delivered(x));
      CountOne(w.log, e, Discarded(x));
    }
  }

  /** A future gives way to a result. */
  lemma FutureGone(w: World, w': World, t: Id)
    requires LogsOk(w) && HasFuture(w, t) && t < w.next
    requires t in w'.tasks && w'.tasks == w.tasks[t := w'.tasks[t]] && w'.tasks[t].slot.Result?
    requires w'.next == w.next && w'.log == w.log + [Resolved(t)]
    ensures LogsOk(w')
  {
    forall x ensures LogOk(w', x) {
      assert LogOk(w, x);
      CountOne(w.log, Resolved(t), Resolved(x));
      CountOne(w.log, Resolved(t), Delivered(x));
      CountOne(w.log, Resolved(t), Discarded(x));
    }
  }

  // ----- spawning and joining -------------------------------------------------------

  lemma NewTask(w: World, c: Task, x: Id)
    requires Core(w) && c.waker == None
    ensures w.next !in w.tasks && Handles(w, w.next) == 0
    ensures w.stored[x] == |Holders(w.tasks[w.next := c], x)|
  {
    assert w.next in w.tasks <==> Handles(w, w.next) > 0;
    PutKeepsStored(w, w.next, c);
  }

  lemma SpawnIsLive(w: World)
    requires Core(w)
    ensures Live(DoSpawn(w))
  {
    var w' := DoSpawn(w);
    forall x ensures x in w'.tasks <==> Handles(w', x) > 0 {
      NewTask(w, w'.tasks[w.next], x);
      assert x in w.tasks <==> Handles(w, x) > 0;
    }
  }

  lemma SpawnIsCore(w: World)
    requires Core(w)
    ensures Core(DoSpawn(w))
  {
    var w' := DoSpawn(w);
    SpawnIsLive(w);
    forall x ensures w'.stored[x] == |Holders(w'.tasks, x)| {
      NewTask(w, w'.tasks[w.next], x);
    }
    assert forall x :: x != w.next && HasFuture(w', x) ==> HasFuture(w, x);
  }

  lemma SpawnKeepsLog(w: World, x: Id)
    requires Core(w) && LogOk(w, x)
    ensures LogOk(DoSpawn(w), x)
  {
    assert w.next !in w.tasks;
    if w.closed {
      CountOne(w.log, Resolved(w.next), Resolved(x));
      CountOne(w.log, Resolved(w.next), Delivered(x));
      CountOne(w.log, Resolved(w.next), Discarded(x));
    }
  }

  lemma SpawnKeepsTasks(w: World, x: Id)
    requires Core(w) && x in DoSpawn(w).tasks && (x in w.tasks ==> TaskOk(w, x))
    ensures TaskOk(DoSpawn(w), x)
  {
    NewTask(w, DoSpawn(w).tasks[w.next], x);
  }

  lemma SpawnKeeps(w: World)
    requires Inv(w)
    ensures Inv(DoSpawn(w))
  {
    SpawnIsCore(w);
    forall x ensures LogOk(DoSpawn(w), x) {
      SpawnKeepsLog(w, x);
    }
    forall x | x in DoSpawn(w).tasks ensures TaskOk(DoSpawn(w), x) {
      SpawnKeepsTasks(w, x);
    }
  }

  lemma LettingIsOneCell(w: World, t: Id)
    requires t in w.tasks && w.tasks[t].join
    ensures OneCell(w, Letting(w, t), t)
    ensures TaskOk(w, t) ==> TaskOk(Letting(w, t), t)
  {
  }

  lemma LettingIsSteady(w: World, t: Id)
    requires Inv(w) && t in w.tasks && w.tasks[t].join
    ensures Steady(Letting(w, t))
  {
    LettingIsOneCell(w, t);
    SameLogIsCalm(w, Letting(w, t));
    OneCellIsSteady(w, Letting(w, t), t);
  }

  lemma DropJoinKeeps(w: World, t: Id)
    requires Inv(w) && t in w.tasks && w.tasks[t].join
    ensures Inv(DoDropJoin(w, t))
  {
    LettingIsSteady(w, t);
    ReleaseIsSteady(Letting(w, t), t);
  }

  lemma AbortIsLive(w: World, t: Id, x: Id)
    requires Live(w) && t in w.tasks
    ensures Handles(DoAbort(w, t), x) > 0 <==> Handles(w, x) > 0
  {
    assert x in w.tasks <==> Handles(w, x) > 0;
  }

  lemma AbortElsewhere(w: World, t: Id, x: Id)
    requires t in w.tasks && x != t
    ensures SameElsewhere(w, DoAbort(w, t), x)
  {
  }

  lemma AbortIsOneCell(w: World, t: Id)
    requires Live(w) && t in w.tasks
    ensures OneCell(w, DoAbort(w, t), t)
  {
    var w' := DoAbort(w, t);
    forall x ensures (Handles(w', x) > 0 <==> Handles(w, x) > 0) && (x != t ==> SameElsewhere(w, w', x)) {
      AbortIsLive(w, t, x);
      if x != t {
        AbortElsewhere(w, t, x);
      }
    }
  }

  lemma AbortedIsOk(w: World, t: Id)
    requires t in w.tasks && TaskOk(w, t)
    ensures TaskOk(DoAbort(w, t), t)
  {
  }

  lemma AbortKeeps(w: World, t: Id)
    requires Inv(w) && t in w.tasks && w.tasks[t].join
    ensures Inv(DoAbort(w, t))
  {
    AbortIsOneCell(w, t);
    AbortedIsOk(w, t);
    SameLogIsCalm(w, DoAbort(w, t));
    OneCellIsSteady(w, DoAbort(w, t), t);
  }

  lemma ClaimIsOneCell(w: World, t: Id, k: Waker)
    requires t in w.tasks && w.tasks[t].complete && TaskOk(w, t)
    ensures OneCell(w, DoPollJoin(w, t, k), t)
    ensures TaskOk(DoPollJoin(w, t, k), t)
  {
  }

  /** The join handle of a complete task finds a result, and takes it. */
  lemma ClaimKeeps(w: World, t: Id, k: Waker)
    requires Inv(w) && t in w.tasks && w.tasks[t].join && t !in w.claimed && w.tasks[t].complete
    ensures HasResult(w, t) && Inv(DoPollJoin(w, t, k))
  {
    assert TaskOk(w, t);
    ClaimIsOneCell(w, t, k);
    ResultGone(w, DoPollJoin(w, t, k), t, Delivered(t));
    OneCellIsSteady(w, DoPollJoin(w, t, k), t);
  }

  lemma StoredIsLive(w: World, t: Id, k: Waker)
    requires Live(w) && StoredExact(w) && t in w.tasks && Usable(w, k)
    ensures Live(Stored(w, t, k))
  {
    var w' := Stored(w, t, k);
    StoredWakerIsCounted(w, t);
    forall x ensures x in w'.tasks <==> Handles(w', x) > 0 {
      assert x in w.tasks <==> Handles(w, x) > 0;
    }
  }

  lemma StoredHolders(w: World, t: Id, k: Waker, x: Id)
    requires StoredExact(w) && t in w.tasks && Target(w.tasks[t].waker) <= w.stored
    ensures Stored(w, t, k).stored[x] == |Holders(Stored(w, t, k).tasks, x)|
  {
    HoldersOfPut(w.tasks, t, w.tasks[t].(waker := Some(k)), x);
    assert w.stored[x] == |Holders(w.tasks, x)|;
    assert t in Holders(w.tasks, x) <==> x in Target(w.tasks[t].waker);
  }

  lemma StoredIsExact(w: World, t: Id, k: Waker)
    requires StoredExact(w) && t in w.tasks
    ensures StoredExact(Stored(w, t, k))
  {
    StoredWakerIsCounted(w, t);
    forall x { StoredHolders(w, t, k, x); }
  }

  lemma StoredKeepsTasks(w: World, t: Id, k: Waker, x: Id)
    requires t in w.tasks && x in w.tasks && TaskOk(w, x)
    ensures TaskOk(Stored(w, t, k), x)
  {
  }

  lemma StoredIsSteady(w: World, t: Id, k: Waker)
    requires Steady(w) && t in w.tasks && Usable(w, k)
    ensures Steady(Stored(w, t, k))
  {
    StoredIsLive(w, t, k);
    StoredIsExact(w, t, k);
    SameSlotsKeepCore(w, Stored(w, t, k));
    SameLogIsCalm(w, Stored(w, t, k));
    forall x | x in w.tasks ensures TaskOk(Stored(w, t, k), x) {
      StoredKeepsTasks(w, t, k, x);
    }
  }

  lemma PollJoinKeeps(w: World, t: Id, k: Waker)
    requires Inv(w) && Enabled(w, PollJoin(t, k))
    ensures Inv(DoPollJoin(w, t, k))
  {
    var c := w.tasks[t];
    if c.complete {
      ClaimKeeps(w, t, k);
    } else if c.waker != Some(k) {
      StoredIsSteady(w, t, k);
      if c.waker.Some? && c.waker.value.TaskWaker? {
        ReleaseIsSteady(Stored(w, t, k), c.waker.value.task);
      }
    }
  }

  // ----- completion -----------------------------------------------------------------

  /** The result of a task is in place, and its runnable is no longer queued. */
  predicate Resulted(w: World, t: Id) {
    && HasResult(w, t) && t !in w.claimed
    && w.tasks[t].running && !w.tasks[t].complete
    && Runnables(w, t) == 0 && multiset(w.stack)[t] == 0 && multiset(w.list)[t] == 1
  }

  /** The task is complete but for being in the task set. */
  ghost predicate Halting(w: World, t: Id) {
    && Core(w) && LogsOk(w) && OthersOk(w, t)
    && t in w.tasks && Scheduled(w, t) && w.tasks[t].complete && multiset(w.list)[t] == 1
  }

  lemma CompletedIsOneCell(w: World, t: Id)
    requires Resulted(w, t)
    ensures OneCell(w, Completed(w, t), t)
    ensures Scheduled(Completed(w, t), t)
  {
  }

  lemma CompletedKeepsLogs(w: World, t: Id)
    requires LogsOk(w) && Resulted(w, t)
    ensures LogsOk(Completed(w, t))
  {
    if w.tasks[t].join {
      SameSlotsKeepLogs(w, Completed(w, t));
    } else {
      ResultGone(w, Completed(w, t), t, Discarded(t));
    }
  }

  lemma CompletedIsHalting(w: World, t: Id)
    requires Core(w) && LogsOk(w) && OthersOk(w, t) && Resulted(w, t)
    ensures Halting(Completed(w, t), t)
  {
    CompletedIsOneCell(w, t);
    CompletedKeepsLogs(w, t);
    OneCellIsCore(w, Completed(w, t), t);
    forall x | x in w.tasks && x != t ensures TaskOk(Completed(w, t), x) {
      OneCellKeepsOthers(w, Completed(w, t), t, x);
    }
  }

  lemma CalmKeepsHalting(w: World, w': World, t: Id)
    requires Halting(w, t) && Core(w') && Calm(w, w')
    ensures Halting(w', t)
  {
    assert t in w'.tasks <==> Handles(w', t) > 0;
    assert forall x :: x in w'.tasks && x != t ==> TaskOk(w, x);
  }

  lemma UnlistedIsLive(w: World, t: Id)
    requires Live(w) && t in w.list
    ensures Live(Unlisted(w, t))
  {
    var w' := Unlisted(w, t);
    WithoutTakesOne(w.list, t);
    forall x ensures x in w'.tasks <==> Handles(w', x) > 0 {
      assert x in w.tasks <==> Handles(w, x) > 0;
    }
  }

  lemma UnlistedIsCore(w: World, t: Id)
    requires Core(w) && t in w.list && !HasFuture(w, t)
    ensures Core(Unlisted(w, t))
  {
    var w' := Unlisted(w, t);
    UnlistedIsLive(w, t);
    WithoutTakesOne(w.list, t);
    forall x | HasFuture(w', x) ensures x in w'.list {
      assert HasFuture(w, x);
      assert multiset(w'.list)[x] == multiset(w.list)[x];
    }
  }

  lemma UnlistedIsSteady(w: World, t: Id)
    requires Halting(w, t)
    ensures Steady(Unlisted(w, t))
  {
    var w' := Unlisted(w, t);
    assert multiset(w.list)[t] > 0;
    WithoutTakesOne(w.list, t);
    UnlistedIsCore(w, t);
    SameSlotsKeepLogs(w, w');
    forall x | x in w'.tasks ensures TaskOk(w', x) {
      assert x != t ==> TaskOk(w, x);
    }
  }

  lemma UnbindEnds(w: World, t: Id)
    requires Halting(w, t)
    ensures Steady(Unbind(w, t)) && Unbind(w, t).flight == w.flight
    ensures Unbind(w, t).closed == w.closed && t in w.list
  {
    assert multiset(w.list)[t] > 0;
    UnlistedIsSteady(w, t);
    ReleaseIsSteady(Unlisted(w, t), t);
    assert w.flight + multiset{t} - multiset{t} == w.flight;
  }

  /** Completing a task: the join handle is woken, the task leaves the task set. */
  lemma CompleteKeeps(w: World, t: Id)
    requires Core(w) && LogsOk(w) && OthersOk(w, t) && Resulted(w, t)
    ensures Steady(Complete(w, t)) && Complete(w, t).flight == w.flight
    ensures Complete(w, t).closed == w.closed && t in w.list
  {
    var c := Completed(w, t);
    CompletedIsHalting(w, t);
    if w.tasks[t].join {
      WakeJoinIsCalm(c, t);
      CalmKeepsHalting(c, WakeJoin(c, t), t);
      UnbindEnds(WakeJoin(c, t), t);
    } else {
      UnbindEnds(c, t);
    }
  }

  // ----- running --------------------------------------------------------------------

  lemma PassedIsSteady(w: World, t: Id)
    requires Steady(w) && t in w.tasks && t in w.held && w.tasks[t].complete
    ensures Steady(Passed(w, t))
  {
    var w' := Passed(w, t);
    HandedOnIsCore(w, w');
    SameLogIsCalm(w, w');
    forall x | x in w'.tasks ensures TaskOk(w', x) {
      assert TaskOk(w, x);
    }
  }

  lemma CancellingIsOneCell(w: World, t: Id)
    requires t in w.tasks && t in w.held && TaskOk(w, t) && !w.tasks[t].complete
    ensures OneCell(w, Cancelling(w, t), t) && Resulted(Cancelling(w, t), t)
  {
  }

  lemma CancellingKeeps(w: World, t: Id)
    requires Steady(w) && t in w.tasks && t in w.held && !w.tasks[t].complete
    ensures var w' := Cancelling(w, t); Core(w') && LogsOk(w') && OthersOk(w', t) && Resulted(w', t)
  {
    var w' := Cancelling(w, t);
    assert TaskOk(w, t);
    CancellingIsOneCell(w, t);
    OneCellIsCore(w, w', t);
    FutureGone(w, w', t);
    forall x | x in w'.tasks && x != t ensures TaskOk(w', x) {
      OneCellKeepsOthers(w, w', t, x);
    }
  }

  lemma ConcludeKeeps(w: World, t: Id)
    requires Core(w) && LogsOk(w) && OthersOk(w, t) && Resulted(w, t) && t in w.flight
    ensures Steady(Conclude(w, t)) && Conclude(w, t).flight == w.flight - multiset{t}
    ensures Conclude(w, t).closed == w.closed && t in w.list
  {
    CompleteKeeps(w, t);
    ReleaseIsSteady(Complete(w, t), t);
  }

  lemma PollingIsOneCell(w: World, t: Id)
    requires t in w.tasks && t in w.held && TaskOk(w, t) && !w.tasks[t].complete && !w.tasks[t].cancelled
    ensures OneCell(w, Polling(w, t), t) && TaskOk(Polling(w, t), t)
  {
  }

  lemma PollingKeepsLogs(w: World, t: Id)
    requires LogsOk(w) && t in w.tasks
    ensures LogsOk(Polling(w, t))
  {
    forall e: Event | !e.PollStarted? ensures Count(Polling(w, t).log, e) == Count(w.log, e) {
      CountOne(w.log, PollStarted(t), e);
    }
    SameSlotsKeepLogs(w, Polling(w, t));
  }

  lemma BeginKeeps(w: World, t: Id)
    requires Inv(w) && t in w.tasks && t in w.held
    ensures Inv(DoBegin(w, t))
  {
    assert TaskOk(w, t);
    if w.tasks[t].complete {
      PassedIsSteady(w, t);
      ReleaseIsSteady(Passed(w, t), t);
    } else if w.tasks[t].cancelled {
      CancellingKeeps(w, t);
      ConcludeKeeps(Cancelling(w, t), t);
    } else {
      PollingIsOneCell(w, t);
      PollingKeepsLogs(w, t);
      OneCellIsSteady(w, Polling(w, t), t);
    }
  }

  lemma LastOfStack(w: World)
    requires w.stack != []
    ensures multiset(w.stack) == multiset(w.stack[..|w.stack| - 1]) + multiset{Top(w)}
  {
    assert w.stack == w.stack[..|w.stack| - 1] + [Top(w)];
  }

  /** A task in the task set outlives any other handle. */
  lemma ListedSurvives(w: World, t: Id)
    requires t in w.tasks && t in w.list && t in w.flight
    ensures Release(w, t) == w.(flight := w.flight - multiset{t})
  {
  }

  lemma RunningIsListed(w: World)
    requires Inv(w) && w.stack != []
    ensures Top(w) in w.tasks && TaskOk(w, Top(w)) && w.tasks[Top(w)].running && Top(w) in w.list
  {
    var t := Top(w);
    LastOfStack(w);
    assert t in w.tasks <==> Handles(w, t) > 0;
    assert TaskOk(w, t);
    assert multiset(w.list)[t] == 1;
  }

  /** A suspended task, its context waker dropped, queued again if it was notified. */
  function Waiting(w: World): World
    requires w.stack != [] && Top(w) in w.tasks
  {
    var t := Top(w);
    w.(tasks := w.tasks[t := w.tasks[t].(running := false)], stack := w.stack[..|w.stack| - 1],
       flight := w.flight + multiset{t}, queue := if w.tasks[t].notified then w.queue + [t] else w.queue)
  }

  lemma WaitingElsewhere(w: World, x: Id)
    requires w.stack != [] && Top(w) in w.tasks
    ensures Handles(Waiting(w), x) > 0 <==> Handles(w, x) > 0
    ensures x != Top(w) ==> SameElsewhere(w, Waiting(w), x)
  {
    LastOfStack(w);
  }

  lemma WaitingIsOk(w: World)
    requires w.stack != [] && Top(w) in w.tasks && TaskOk(w, Top(w)) && w.tasks[Top(w)].running
    requires !w.tasks[Top(w)].cancelled
    ensures TaskOk(Waiting(w), Top(w))
  {
    LastOfStack(w);
  }

  lemma WaitingIsOneCell(w: World)
    requires w.stack != [] && Top(w) in w.tasks && TaskOk(w, Top(w)) && w.tasks[Top(w)].running
    requires !w.tasks[Top(w)].cancelled
    ensures OneCell(w, Waiting(w), Top(w)) && TaskOk(Waiting(w), Top(w))
  {
    WaitingIsOk(w);
    forall x { WaitingElsewhere(w, x); }
  }

  lemma SuspendIsWaiting(w: World)
    requires w.stack != [] && Top(w) in w.tasks && Top(w) in w.list && w.flight == multiset{}
    ensures Suspend(Suspended(w), Top(w)) == Drop(Waiting(w), Top(w))
  {
    var t := Top(w);
    ListedSurvives(Suspended(w), t);
    assert w.flight + multiset{t, t} - multiset{t} == w.flight + multiset{t};
  }

  lemma WaitingIsSteady(w: World)
    requires Inv(w) && w.stack != [] && Top(w) in w.tasks && !w.tasks[Top(w)].cancelled
    ensures Steady(Waiting(w)) && Top(w) in w.list
  {
    RunningIsListed(w);
    WaitingIsOneCell(w);
    SameLogIsCalm(w, Waiting(w));
    OneCellIsSteady(w, Waiting(w), Top(w));
  }

  lemma SuspendKeeps(w: World)
    requires Inv(w) && w.stack != [] && Top(w) in w.tasks && !w.tasks[Top(w)].cancelled
    ensures Inv(Suspend(Suspended(w), Top(w)))
  {
    WaitingIsSteady(w);
    SuspendIsWaiting(w);
    ReleaseIsSteady(Waiting(w), Top(w));
  }

  /** The result of a poll in place, its context waker dropped. */
  function Settled(w: World, o: Output): World
    requires w.stack != [] && Top(w) in w.tasks
  {
    var t := Top(w);
    w.(tasks := w.tasks[t := w.tasks[t].(slot := Result(o))], stack := w.stack[..|w.stack| - 1],
       flight := w.flight + multiset{t}, log := w.log + [Resolved(t)])
  }

  lemma SettledIsOneCell(w: World, o: Output)
    requires w.stack != [] && Top(w) in w.tasks && TaskOk(w, Top(w)) && w.tasks[Top(w)].running
    ensures OneCell(w, Settled(w, o), Top(w)) && Resulted(Settled(w, o), Top(w))
  {
    LastOfStack(w);
  }

  lemma FinishIsConclude(w: World, o: Output)
    requires w.stack != [] && Top(w) in w.tasks && Top(w) in w.list && w.flight == multiset{}
    ensures Finish(Resolving(w, o), Top(w)) == Conclude(Settled(w, o), Top(w))
  {
    var t := Top(w);
    ListedSurvives(Resolving(w, o), t);
    assert w.flight + multiset{t, t} - multiset{t} == w.flight + multiset{t};
  }

  lemma SettledKeeps(w: World, o: Output)
    requires Inv(w) && w.stack != [] && Top(w) in w.tasks
    ensures var w' := Settled(w, o); Core(w') && LogsOk(w') && OthersOk(w', Top(w)) && Resulted(w', Top(w))
  {
    var w' := Settled(w, o);
    RunningIsListed(w);
    SettledIsOneCell(w, o);
    OneCellIsCore(w, w', Top(w));
    FutureGone(w, w', Top(w));
    forall x | x in w'.tasks && x != Top(w) ensures TaskOk(w', x) {
      OneCellKeepsOthers(w, w', Top(w), x);
    }
  }

  lemma FinishKeeps(w: World, o: Output)
    requires Inv(w) && w.stack != [] && Top(w) in w.tasks
    ensures Inv(Finish(Resolving(w, o), Top(w)))
  {
    RunningIsListed(w);
    SettledKeeps(w, o);
    FinishIsConclude(w, o);
    ConcludeKeeps(Settled(w, o), Top(w));
  }

  lemma PendingEnds(w: World)
    requires w.stack != [] && Top(w) in w.tasks
    ensures DoEnd(w, Pending) == if w.tasks[Top(w)].cancelled then Finish(Resolving(w, Cancelled), Top(w))
                                 else Suspend(Suspended(w), Top(w))
  {
  }

  lemma EndKeeps(w: World, outcome: Outcome)
    requires Inv(w) && w.stack != [] && Top(w) in w.tasks
    ensures Inv(DoEnd(w, outcome))
  {
    match outcome
    case Ready => FinishKeeps(w, Finished);
    case Panic => FinishKeeps(w, Panicked);
    case Pending =>
      if w.tasks[Top(w)].cancelled {
        FinishKeeps(w, Cancelled);
      } else {
        SuspendKeeps(w);
      }
  }

  // ----- shutting down --------------------------------------------------------------

  lemma ShutFirstIsOneCell(w: World)
    requires w.list != [] && w.list[0] in w.tasks
    ensures OneCell(w, ShutFirst(w), w.list[0])
  {
    HeadAndTail(w.list);
  }

  lemma ShutFirstIsOk(w: World)
    requires w.list != [] && w.list[0] in w.tasks && w.stack == [] && TaskOk(w, w.list[0])
    ensures HasFuture(w, w.list[0]) && TaskOk(ShutFirst(w), w.list[0])
  {
    HeadAndTail(w.list);
  }

  lemma ShutFirstKeeps(w: World)
    requires Steady(w) && w.stack == [] && w.list != [] && w.list[0] in w.tasks
    ensures Steady(ShutFirst(w))
  {
    var w' := ShutFirst(w);
    var t := w.list[0];
    assert TaskOk(w, t);
    ShutFirstIsOneCell(w);
    ShutFirstIsOk(w);
    OneCellIsCore(w, w', t);
    FutureGone(w, w', t);
    forall x | x in w'.tasks && x != t ensures TaskOk(w', x) {
      OneCellKeepsOthers(w, w', t, x);
    }
  }

  lemma ListedIsThere(w: World)
    requires Live(w)
    ensures forall t :: t in w.list || t in w.queue || t in w.held || t in w.stack || t in w.wakers ==> t in w.tasks
  {
    forall t | t in w.list || t in w.queue || t in w.held || t in w.stack || t in w.wakers ensures t in w.tasks {
      assert t in w.tasks <==> Handles(w, t) > 0;
    }
  }

  lemma CancelFirstKeeps(w: World)
    requires Steady(w) && w.stack == [] && w.list != [] && w.flight == multiset{}
    ensures var w' := CancelFirst(w);
            && Steady(w') && w'.stack == [] && w'.flight == multiset{} && |w'.list| < |w.list|
            && w'.closed == w.closed && CancelAll(w) == CancelAll(w')
  {
    ListedIsThere(w);
    ShutFirstKeeps(w);
    ReleaseIsSteady(ShutFirst(w), w.list[0]);
  }

  /** Shutting down the task set leaves only complete tasks. */
  lemma {:induction false} CancelAllKeeps(w: World)
    requires Steady(w) && w.stack == [] && w.flight == multiset{}
    ensures Steady(CancelAll(w)) && CancelAll(w).flight == multiset{}
    ensures CancelAll(w).list == [] && CancelAll(w).stack == [] && CancelAll(w).closed == w.closed
    decreases |w.list|
  {
    if w.list != [] {
      CancelFirstKeeps(w);
      CancelAllKeeps(CancelFirst(w));
    }
  }

  lemma UnqueuedKeeps(w: World)
    requires Steady(w) && w.list == [] && w.queue != []
    ensures Steady(Unqueued(w))
  {
    var w' := Unqueued(w);
    HeadAndTail(w.queue);
    HandedOnIsCore(w, w');
    SameLogIsCalm(w, w');
    forall x | x in w'.tasks ensures TaskOk(w', x) {
      assert TaskOk(w, x);
    }
  }

  /** Without incomplete tasks the runnables left in the queue can be dropped. */
  lemma {:induction false} DropQueueKeeps(w: World)
    requires Steady(w) && w.list == [] && w.stack == [] && w.flight == multiset{}
    ensures Steady(DropQueue(w)) && DropQueue(w).flight == multiset{}
    ensures DropQueue(w).list == [] && DropQueue(w).stack == [] && DropQueue(w).closed == w.closed
    ensures DropQueue(w).queue == []
    decreases |w.queue|
  {
    if w.queue != [] {
      UnqueuedKeeps(w);
      ReleaseIsSteady(Unqueued(w), w.queue[0]);
      DropQueueKeeps(DropFirst(w));
    }
  }

  lemma ClosedIsSteady(w: World)
    requires Steady(w)
    ensures Steady(w.(closed := true))
  {
    var w' := w.(closed := true);
    HandedOnIsCore(w, w');
    SameLogIsCalm(w, w');
    forall x | x in w'.tasks ensures TaskOk(w', x) {
      assert TaskOk(w, x);
    }
  }

  lemma ShutdownKeeps(w: World)
    requires Inv(w) && w.stack == []
    ensures Inv(DoShutdown(w)) && DoShutdown(w).closed
    ensures DoShutdown(w).list == [] && DoShutdown(w).queue == [] && DoShutdown(w).stack == []
  {
    ClosedIsSteady(w);
    CancelAllKeeps(w.(closed := true));
    DropQueueKeeps(CancelAll(w.(closed := true)));
  }

  /** Every step keeps the invariant. */
  lemma StepKeeps(w: World, op: Op)
    requires Inv(w) && Enabled(w, op)
    ensures Inv(Step(w, op))
  {
    match op
    case Spawn => SpawnKeeps(w);
    case Next => NextKeeps(w);
    case Begin(t) => BeginKeeps(w, t);
    case End(outcome) => EndKeeps(w, outcome);
    case WakeRef(t) => NotifyIsSteady(w, t);
    case WakeVal(t) => WakeValKeeps(w, t);
    case CloneWaker(t) => CloneWakerKeeps(w, t);
    case DropWaker(t) => DropWakerKeeps(w, t);
    case Abort(t) => AbortKeeps(w, t);
    case PollJoin(t, k) => PollJoinKeeps(w, t, k);
    case DropJoin(t) => DropJoinKeeps(w, t);
    case Shutdown => ShutdownKeeps(w);
  }
}
