/** Shutting down: what is left, what comes later, and who is not told. */
module TaskShutdown {
  import opened TaskModel
  import opened TaskInvariant
  import opened TaskSteps
  import opened TaskKeeps
  import opened TaskProgress
  import opened TaskJoins
  import opened TaskRuns

  // ----- shutting down --------------------------------------------------------------

  /** Shut down: nothing runs and nothing will. */
  ghost predicate Quiescent(w: World) {
    Inv(w) && w.closed && w.list == [] && w.queue == [] && w.stack == []
  }

  lemma QuiescentIsDone(w: World, x: Id)
    requires Quiescent(w)
    ensures x in w.tasks ==> w.tasks[x].complete && !w.tasks[x].slot.Future?
    ensures x < w.next ==> Done(w, x) && Stopped(w, x)
  {
    assert x in w.tasks ==> TaskOk(w, x);
  }

  lemma QuiescentStep(w: World, op: Op)
    requires Quiescent(w) && Enabled(w, op)
    ensures Quiescent(Step(w, op)) && Step(w, op).next == w.next + if op == Spawn then 1 else 0
  {
    StepKeeps(w, op);
    ListedIsThere(w);
    match op
    case Begin(t) =>
      QuiescentIsDone(w, t);
      PassedIsSteady(w, t);
      ReleaseIsSteady(Passed(w, t), t);
    case WakeRef(t) => QuiescentIsDone(w, t);
    case WakeVal(t) =>
      QuiescentIsDone(w, t);
      WakerInFlight(w, t);
      ReleaseIsSteady(Lifted(w, t), t);
    case DropWaker(t) =>
      WakerInFlight(w, t);
      ReleaseIsSteady(Lifted(w, t), t);
    case Abort(t) => QuiescentIsDone(w, t);
    case PollJoin(t, k) => QuiescentIsDone(w, t);
    case DropJoin(t) =>
      LettingIsSteady(w, t);
      ReleaseIsSteady(Letting(w, t), t);
    case Shutdown => ShutdownKeeps(w);
    case _ =>
  }

  lemma {:induction false} QuiescentRun(w: World, ops: seq<Op>)
    requires Quiescent(w) && Allowed(w, ops)
    ensures Quiescent(Run(w, ops))
    decreases |ops|
  {
    if ops == [] {
    } else {
      QuiescentStep(w, ops[0]);
      QuiescentRun(Step(w, ops[0]), ops[1..]);
    }
  }

  lemma DoomedByCancelAll(w: World, x: Id)
    requires Steady(w) && w.stack == [] && w.flight == multiset{} && Doomed(w, x)
    ensures Doomed(CancelAll(w), x)
  {
    HandedOnIsOnward(w, w);
    CancelAllIsOnward(w, w);
    assert Moves(w, CancelAll(w), x);
  }

  /** Shutting down the task set leaves every task it finds unfinished no result but cancelled. */
  lemma {:induction false} CancelAllDooms(w: World, x: Id)
    requires Steady(w) && w.stack == [] && w.flight == multiset{} && HasFuture(w, x)
    ensures Doomed(CancelAll(w), x)
    decreases |w.list|
  {
    assert x in w.list;
    ListedIsThere(w);
    CancelFirstKeeps(w);
    if HasFuture(CancelFirst(w), x) {
      CancelAllDooms(CancelFirst(w), x);
    } else {
      ShutOrGone(w, x);
      DoomedByCancelAll(CancelFirst(w), x);
    }
  }

  /** A task that has lost its future in this step was cancelled, or is gone. */
  lemma ShutOrGone(w: World, x: Id)
    requires Steady(w) && w.stack == [] && w.list != [] && w.list[0] in w.tasks && HasFuture(w, x)
    requires !HasFuture(CancelFirst(w), x)
    ensures Doomed(CancelFirst(w), x)
  {
    var t := w.list[0];
    ShutFirstKeeps(w);
    ReleaseIsSteady(ShutFirst(w), t);
    assert TaskOk(w, t) && TaskOk(w, x);
  }

  lemma ShutdownDooms(w: World, x: Id)
    requires Inv(w) && w.stack == [] && HasFuture(w, x)
    ensures Doomed(DoShutdown(w), x)
  {
    var shut := w.(closed := true);
    ClosedIsSteady(w);
    CancelAllDooms(shut, x);
    CancelAllKeeps(shut);
    HandedOnIsOnward(CancelAll(shut), CancelAll(shut));
    DropQueueIsOnward(CancelAll(shut), CancelAll(shut));
    assert Moves(CancelAll(shut), DoShutdown(w), x);
  }

  /** A task spawned after the shutdown has no result but cancelled. */
  lemma {:induction false} LaterIsDoomed(w: World, ops: seq<Op>, x: Id)
    requires Quiescent(w) && Allowed(w, ops) && w.next <= x < Run(w, ops).next
    ensures Doomed(Run(w, ops), x)
    decreases |ops|
  {
    var w' := Step(w, ops[0]);
    QuiescentStep(w, ops[0]);
    if x < w'.next {
      assert Doomed(w', x);
      RunKeeps(w', ops[1..]);
      assert Moves(w', Run(w, ops), x);
    } else {
      LaterIsDoomed(w', ops[1..], x);
    }
  }

  /** After a shutdown, and whatever follows it, every task is done, those spawned later
      included; those the shutdown found unfinished and those spawned later have no result but
      cancelled; no poll ever starts; nothing is queued; and a cell is only kept by its join
      handle, by a waker, or by a runnable popped before the shutdown. */
  lemma ShutdownEnds(w: World, ops: seq<Op>, x: Id)
    requires Inv(w) && Enabled(w, Shutdown) && Allowed(DoShutdown(w), ops)
    ensures var w' := Run(DoShutdown(w), ops);
            && w'.queue == [] && w'.list == [] && w'.stack == []
            && (x < w'.next ==> Done(w', x))
            && (HasFuture(w, x) || w.next <= x < w'.next ==> Doomed(w', x))
            && (x < w.next ==> Polls(w', x) == Polls(DoShutdown(w), x))
            && (x in w'.tasks ==> w'.tasks[x].complete)
            && (x in w'.tasks ==> w'.tasks[x].join || x in w'.wakers || x in w'.stored || x in w'.held)
  {
    var s := DoShutdown(w);
    var w' := Run(s, ops);
    ShutdownKeeps(w);
    QuiescentRun(s, ops);
    QuiescentIsDone(w', x);
    assert x in w'.tasks <==> Handles(w', x) > 0;
    ShutdownFixes(w, ops, x);
  }

  lemma ShutdownFixes(w: World, ops: seq<Op>, x: Id)
    requires Inv(w) && Enabled(w, Shutdown) && Allowed(DoShutdown(w), ops)
    ensures var w' := Run(DoShutdown(w), ops);
            && (HasFuture(w, x) || w.next <= x < w'.next ==> Doomed(w', x))
            && (x < w.next ==> Polls(w', x) == Polls(DoShutdown(w), x))
  {
    var s := DoShutdown(w);
    ShutdownKeeps(w);
    ShutdownIsOnward(w);
    ShutdownSpawnsNone(w);
    RunKeeps(s, ops);
    QuiescentIsDone(s, x);
    assert Moves(s, Run(s, ops), x);
    if HasFuture(w, x) {
      ShutdownDooms(w, x);
    }
    if w.next <= x < Run(s, ops).next {
      LaterIsDoomed(s, ops, x);
    }
  }

  // ----- what a shutdown does not do ------------------------------------------------

  lemma ShrunkWakesNone(w: World, w': World, x: Id, k: Waker)
    requires Shrunk(w, w')
    ensures Woken(w', x, k) == Woken(w, x, k) && w'.next == w.next
  {
  }

  /** Dropping handles wakes nobody. */
  lemma ReleaseWakesNone(w: World, t: Id, x: Id, k: Waker)
    requires Core(w) && t in w.flight
    ensures t in w.tasks && Woken(Release(w, t), x, k) == Woken(w, x, k) && Release(w, t).next == w.next
  {
    ReleaseKeeps(w, t);
    ShrunkWakesNone(w, Release(w, t), x, k);
  }

  lemma CancelFirstWakesNone(w: World, x: Id, k: Waker)
    requires Steady(w) && w.stack == [] && w.list != []
    ensures Woken(CancelFirst(w), x, k) == Woken(w, x, k) && CancelFirst(w).next == w.next
  {
    ListedIsThere(w);
    assert TaskOk(w, w.list[0]);
    ShutFirstKeeps(w);
    CountOne(w.log, Resolved(w.list[0]), JoinWoken(x, k));
    ReleaseWakesNone(ShutFirst(w), w.list[0], x, k);
  }

  lemma {:induction false} CancelAllWakesNone(w: World, x: Id, k: Waker)
    requires Steady(w) && w.stack == [] && w.flight == multiset{}
    ensures Woken(CancelAll(w), x, k) == Woken(w, x, k) && CancelAll(w).next == w.next
    decreases |w.list|
  {
    if w.list != [] {
      CancelFirstKeeps(w);
      CancelFirstWakesNone(w, x, k);
      CancelAllWakesNone(CancelFirst(w), x, k);
    }
  }

  lemma {:induction false} DropQueueWakesNone(w: World, x: Id, k: Waker)
    requires Steady(w) && w.list == [] && w.flight == multiset{}
    ensures Woken(DropQueue(w), x, k) == Woken(w, x, k) && DropQueue(w).next == w.next
    decreases |w.queue|
  {
    if w.queue != [] {
      UnqueuedKeeps(w);
      ReleaseIsSteady(Unqueued(w), w.queue[0]);
      ReleaseWakesNone(Unqueued(w), w.queue[0], x, k);
      DropQueueWakesNone(DropFirst(w), x, k);
    }
  }

  lemma ShutdownSpawnsNone(w: World)
    requires Inv(w) && w.stack == []
    ensures DoShutdown(w).next == w.next
  {
    ShutdownLeavesAwaiters(w, 0, Foreign(0));
  }

  /** A shutdown completes tasks without waking their join handles. */
  lemma ShutdownLeavesAwaiters(w: World, x: Id, k: Waker)
    requires Inv(w) && w.stack == []
    ensures Woken(DoShutdown(w), x, k) == Woken(w, x, k) && DoShutdown(w).next == w.next
    ensures Attended(w, x, k) ==> Done(DoShutdown(w), x)
  {
    var shut := w.(closed := true);
    ClosedIsSteady(w);
    CancelAllWakesNone(shut, x, k);
    CancelAllKeeps(shut);
    DropQueueWakesNone(CancelAll(shut), x, k);
    ShutdownKeeps(w);
    if Attended(w, x, k) {
      QuiescentIsDone(DoShutdown(w), x);
    }
  }
}
