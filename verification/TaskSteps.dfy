/** Every operation keeps the invariant of the task system. */
module TaskSteps {
  import opened Bags
  import opened Wrappers
  import opened TaskModel
  import opened TaskInvariant

  // ----- calm changes: dropping handles and waking ------------------------------------

  predicate Quiet(e: Event) {
    e.Discarded? || e.JoinWoken?
  }

  /** What dropping handles and waking may change: cells may be freed, tasks marked as
      notified and queued, stored wakers taken; nothing else of a task changes. */
  ghost predicate Calm(w: World, w': World) {
    CalmCells(w, w') && CalmTasks(w, w') && CalmLog(w, w')
  }

  ghost predicate CalmCells(w: World, w': World) {
    && w.queue <= w'.queue
    && w' == w.(tasks := w'.tasks, queue := w'.queue, stored := w'.stored, flight := w'.flight, log := w'.log)
    && (forall x :: x in w'.tasks ==> x in w.tasks && SameButMarked(w.tasks[x], w'.tasks[x]))
  }

  ghost predicate CalmTasks(w: World, w': World) {
    forall x :: x in w.tasks && x in w'.tasks && Scheduled(w, x) ==> Scheduled(w', x)
  }

  ghost predicate CalmLog(w: World, w': World) {
    && (forall e: Event :: !Quiet(e) ==> Count(w'.log, e) == Count(w.log, e))
    && (forall e: Event :: Count(w'.log, e) >= Count(w.log, e))
    && (LogsOk(w) ==> LogsOk(w'))
  }

  predicate SameButMarked(c: Task, c': Task) {
    c' == c.(notified := c'.notified, waker := c'.waker) && (c.notified ==> c'.notified)
  }

  lemma CalmTransitive(a: World, b: World, c: World)
    requires Calm(a, b) && Calm(b, c)
    ensures Calm(a, c)
  {
  }

  lemma DroppedIsCalm(w: World, t: Id, w': World)
    requires Dropped(w, t, w')
    ensures Calm(w, w')
  {
    forall x | x in w'.tasks && Scheduled(w, x) ensures Scheduled(w', x) {
      ShrunkKeepsTask(w, w', x);
    }
  }

  lemma ReleaseIsCalm(w: World, t: Id)
    requires Core(w) && t in w.flight
    ensures t in w.tasks
    ensures Core(Release(w, t)) && Calm(w, Release(w, t))
    ensures Release(w, t).flight == w.flight - multiset{t} && Release(w, t).queue == w.queue
  {
    ReleaseKeeps(w, t);
    DroppedIsCalm(w, t, Release(w, t));
  }

  lemma NotifyIsLive(w: World, t: Id)
    requires Live(w) && t in w.tasks
    ensures Live(Notify(w, t))
  {
    var w' := Notify(w, t);
    forall x ensures x in w'.tasks <==> Handles(w', x) > 0 {
      assert x in w.tasks <==> Handles(w, x) > 0;
    }
  }

  lemma NotifyKeepsTasks(w: World, t: Id)
    requires t in w.tasks
    ensures CalmCells(w, Notify(w, t)) && CalmTasks(w, Notify(w, t))
  {
  }

  /** Logs only depend on the slots of the cells, and on the log. */
  lemma SameSlotsKeepLogs(w: World, w': World)
    requires LogsOk(w) && w'.next == w.next
    requires forall x :: x in w.tasks <==> x in w'.tasks
    requires forall x :: x in w.tasks ==> w'.tasks[x].slot == w.tasks[x].slot
    requires forall e: Event :: !e.JoinWoken? && !e.PollStarted? ==> Count(w'.log, e) == Count(w.log, e)
    ensures LogsOk(w')
  {
    forall x ensures LogOk(w', x) {
      assert LogOk(w, x);
    }
  }

  lemma SameLogIsCalm(w: World, w': World)
    requires w'.next == w.next && w'.log == w.log
    requires forall x :: x in w.tasks <==> x in w'.tasks
    requires forall x :: x in w.tasks ==> w'.tasks[x].slot == w.tasks[x].slot
    ensures CalmLog(w, w')
  {
    if LogsOk(w) {
      SameSlotsKeepLogs(w, w');
    }
  }

  lemma SameSlotsKeepCore(w: World, w': World)
    requires Core(w) && Live(w') && StoredExact(w') && w'.next >= w.next && w'.claimed == w.claimed
    requires forall x :: x in w'.tasks ==> x in w.tasks && w'.tasks[x].slot == w.tasks[x].slot
    requires forall x :: x in w'.tasks && x in w.list ==> x in w'.list
    ensures Core(w')
  {
    assert forall x :: HasFuture(w', x) ==> HasFuture(w, x);
  }

  lemma NotifyIsCalm(w: World, t: Id)
    requires Core(w) && t in w.tasks
    ensures Core(Notify(w, t)) && Calm(w, Notify(w, t))
    ensures Notify(w, t).flight == w.flight
  {
    var w' := Notify(w, t);
    NotifyIsLive(w, t);
    PutKeepsStored(w, t, w.tasks[t].(notified := true));
    NotifyKeepsTasks(w, t);
    SameSlotsKeepCore(w, w');
    SameLogIsCalm(w, w');
  }

  /** Waking by a waker in flight: the task is marked and the waker dropped. */
  lemma WakeByIsCalm(w: World, k: Waker)
    requires Core(w) && Target(Some(k)) <= w.flight
    ensures Core(WakeBy(w, k)) && Calm(w, WakeBy(w, k))
    ensures WakeBy(w, k).flight == w.flight - Target(Some(k))
  {
    if k.TaskWaker? {
      var t := k.task;
      InFlightIsThere(w, t);
      NotifyIsCalm(w, t);
      ReleaseIsCalm(Notify(w, t), t);
      CalmTransitive(w, Notify(w, t), Release(Notify(w, t), t));
    }
  }

  lemma TakeWakerIsLive(w: World, t: Id)
    requires Live(w) && StoredExact(w) && t in w.tasks && w.tasks[t].waker.Some?
    ensures Live(TakeWaker(w, t))
  {
    var w' := TakeWaker(w, t);
    StoredWakerIsCounted(w, t);
    forall x ensures x in w'.tasks <==> Handles(w', x) > 0 {
      assert x in w.tasks <==> Handles(w, x) > 0;
    }
  }

  lemma TakeWakerIsStored(w: World, t: Id)
    requires StoredExact(w) && t in w.tasks && w.tasks[t].waker.Some?
    ensures StoredExact(TakeWaker(w, t))
  {
    var w' := TakeWaker(w, t);
    forall x ensures w'.stored[x] == |Holders(w'.tasks, x)| {
      HoldersOfPut(w.tasks, t, w.tasks[t].(waker := None), x);
      assert w.stored[x] == |Holders(w.tasks, x)|;
      assert t in Holders(w.tasks, x) <==> x in Target(w.tasks[t].waker);
    }
  }

  lemma TakeWakerIsQuiet(w: World, t: Id)
    requires t in w.tasks && w.tasks[t].waker.Some?
    ensures CalmLog(w, TakeWaker(w, t))
  {
    var w' := TakeWaker(w, t);
    forall e: Event ensures Count(w'.log, e)
        == Count(w.log, e) + if e == JoinWoken(t, w.tasks[t].waker.value) then 1 else 0
    {
      CountOne(w.log, JoinWoken(t, w.tasks[t].waker.value), e);
    }
    if LogsOk(w) {
      SameSlotsKeepLogs(w, w');
    }
  }

  lemma TakeWakerKeepsTasks(w: World, t: Id)
    requires t in w.tasks && w.tasks[t].waker.Some?
    ensures CalmCells(w, TakeWaker(w, t)) && CalmTasks(w, TakeWaker(w, t))
  {
  }

  lemma TakeWakerIsCalm(w: World, t: Id)
    requires Core(w) && t in w.tasks && w.tasks[t].waker.Some?
    ensures Core(TakeWaker(w, t)) && Calm(w, TakeWaker(w, t))
  {
    TakeWakerIsLive(w, t);
    TakeWakerIsStored(w, t);
    TakeWakerKeepsTasks(w, t);
    TakeWakerIsQuiet(w, t);
    SameSlotsKeepCore(w, TakeWaker(w, t));
  }

  lemma TakeThenWake(w: World, taken: World, woken: World, ts: multiset<Id>)
    requires Core(woken) && Calm(w, taken) && Calm(taken, woken)
    requires taken.flight == w.flight + ts && woken.flight == taken.flight - ts
    ensures Calm(w, woken) && woken.flight == w.flight
  {
    CalmTransitive(w, taken, woken);
  }

  lemma WakeJoinIsCalm(w: World, t: Id)
    requires Core(w) && t in w.tasks
    ensures Core(WakeJoin(w, t)) && Calm(w, WakeJoin(w, t))
    ensures WakeJoin(w, t).flight == w.flight
  {
    if w.tasks[t].waker.None? {
      SameLogIsCalm(w, w);
    } else {
      var k := w.tasks[t].waker.value;
      TakeWakerIsCalm(w, t);
      WakeByIsCalm(TakeWaker(w, t), k);
      TakeThenWake(w, TakeWaker(w, t), WakeBy(TakeWaker(w, t), k), Target(Some(k)));
    }
  }

  // ----- steps that keep everything ---------------------------------------------------

  lemma CalmKeepsSteady(w: World, w': World)
    requires Steady(w) && Core(w') && Calm(w, w')
    ensures Steady(w')
  {
    forall x | x in w'.tasks ensures TaskOk(w', x) {
      assert TaskOk(w, x);
    }
  }

  lemma ReleaseIsSteady(w: World, t: Id)
    requires Steady(w) && t in w.flight
    ensures t in w.tasks && Drop(w, t) == Release(w, t)
    ensures Steady(Release(w, t)) && Calm(w, Release(w, t))
    ensures Release(w, t).flight == w.flight - multiset{t} && Release(w, t).queue == w.queue
  {
    ReleaseIsCalm(w, t);
    CalmKeepsSteady(w, Release(w, t));
  }

  lemma NotifyIsSteady(w: World, t: Id)
    requires Steady(w) && t in w.tasks
    ensures Steady(Notify(w, t)) && Calm(w, Notify(w, t)) && Notify(w, t).flight == w.flight
  {
    NotifyIsCalm(w, t);
    CalmKeepsSteady(w, Notify(w, t));
  }

  /** Handles may change hands. */
  lemma HandedOnIsCore(w: World, w': World)
    requires Core(w) && w'.tasks == w.tasks && w'.stored == w.stored
    requires w'.next == w.next && w'.list == w.list && w'.claimed == w.claimed
    requires forall x :: Handles(w', x) > 0 <==> Handles(w, x) > 0
    ensures Core(w')
  {
    assert forall x :: HasFuture(w', x) ==> HasFuture(w, x);
  }

  /** A handle held outside, or one just made, is put in flight. */
  lemma WakerInFlight(w: World, t: Id)
    requires Steady(w) && t in w.wakers
    ensures t in w.tasks
    ensures Steady(Lifted(w, t))
  {
    var w' := Lifted(w, t);
    assert t in w.tasks <==> Handles(w, t) > 0;
    HandedOnIsCore(w, w');
    SameLogIsCalm(w, w');
    forall x | x in w'.tasks ensures TaskOk(w', x) {
      assert TaskOk(w, x);
    }
  }

  lemma WakeValKeeps(w: World, t: Id)
    requires Inv(w) && t in w.wakers
    ensures t in w.tasks && Inv(DoWakeVal(w, t))
  {
    WakerInFlight(w, t);
    var w' := Lifted(w, t);
    NotifyIsSteady(w', t);
    ReleaseIsSteady(Notify(w', t), t);
  }

  lemma DropWakerKeeps(w: World, t: Id)
    requires Inv(w) && t in w.wakers
    ensures t in w.tasks && Inv(DoDropWaker(w, t))
  {
    WakerInFlight(w, t);
    ReleaseIsSteady(Lifted(w, t), t);
  }

  lemma CloneWakerKeeps(w: World, t: Id)
    requires Inv(w) && t in w.tasks
    ensures Inv(w.(wakers := w.wakers + multiset{t}))
  {
    var w' := w.(wakers := w.wakers + multiset{t});
    forall x ensures Handles(w', x) > 0 <==> Handles(w, x) > 0 {
      assert x in w.tasks <==> Handles(w, x) > 0;
    }
    HandedOnIsCore(w, w');
    SameLogIsCalm(w, w');
    forall x | x in w'.tasks ensures TaskOk(w', x) {
      assert TaskOk(w, x);
    }
  }

  lemma NextKeeps(w: World)
    requires Inv(w)
    ensures Inv(DoNext(w))
  {
    if w.queue != [] {
      var w' := DoNext(w);
      HeadAndTail(w.queue);
      forall x ensures Runnables(w', x) == Runnables(w, x) && Handles(w', x) == Handles(w, x) {
      }
      HandedOnIsCore(w, w');
      SameLogIsCalm(w, w');
      forall x | x in w'.tasks ensures TaskOk(w', x) {
        assert TaskOk(w, x);
      }
    }
  }
}
