/** The task queue as the source runs it: cells with flags and a reference count, a run queue,
    a task set with a size counter. Every method does to the handles what `TaskModel` says,
    and the count in every cell is the number of its handles. */
module TaskRuntime {
  import opened Bags
  import opened Wrappers
  import opened TaskModel
  import opened TaskInvariant
  import opened TaskSteps
  import opened TaskKeeps
  import opened TaskJoins
  import opened TaskResults
  import opened TaskCells
  import opened TaskCounts

  class TaskQueue {
    var cells: map<Id, Cell>
    var runqueue: seq<Id>
    var list: seq<Id>
    var size: nat
    var closed: bool
    var next: Id
    /** The state in terms of handles. */
    ghost var world: World

    ghost predicate Valid()
      reads this
    {
      && Counted(cells, world)
      && Matches(world, runqueue, list, closed, next) && size == |list|
    }

    constructor ()
      ensures Valid() && world == EmptyWorld
    {
      cells, runqueue, list, size, closed, next := map[], [], [], 0, false, 0;
      world := EmptyWorld;
    }

    /** Another handle to a task. */
    method CloneRef(t: Id)
      requires Valid() && t in cells && Handles(world, t) > 0
      modifies this
      ensures Valid() && world == Cloned(old(world), t)
    {
      UpCounts(cells, world, t);
      var c := IncrementCount(cells[t]);
      cells := cells[t := c];
      world := Cloned(world, t);
    }

    /** Queues a runnable in flight. */
    method Schedule(t: Id)
      requires Valid() && t in world.flight
      modifies this
      ensures Valid() && world == Pushed(old(world), t)
    {
      PushCounts(cells, world, t);
      runqueue := runqueue + [t];
      world := Pushed(world, t);
    }

    /** Frees a cell. */
    method Dealloc(t: Id)
      requires Valid() && StoredExact(world) && t in cells && t in world.flight
      modifies this
      ensures Valid() && world == Freed(old(world), t) && cells == old(cells) - {t}
    {
      FreeCounts(cells, world, t);
      cells := cells - {t};
      world := Freed(world, t);
    }

    method StoreCount(t: Id, c: Cell)
      requires Valid() && t in cells && t in world.flight
      requires cells[t].state.refcount > 0 && c == Recounted(cells[t], cells[t].state.refcount - 1)
      modifies this
      ensures Valid() && world == Dropping(old(world), t)
    {
      DownCounts(cells, world, t, c.state.refcount);
      cells := cells[t := c];
      world := Dropping(world, t);
    }

    /** Drops one handle in flight; the last one frees the cell. */
    method DropRef(t: Id)
      requires Valid() && Core(world) && t in world.flight
      modifies this
      ensures Valid() && world == Release(old(world), t)
      decreases |cells|, 1
    {
      InFlightIsThere(world, t);
      LastIsUnjoined(world, t);
      var c, last := DecrementCount(cells[t]);
      if last {
        FreeCell(t);
      } else {
        StoreCount(t, c);
      }
    }

    /** Frees a cell, and drops the waker stored there. */
    method FreeCell(t: Id)
      requires Valid() && Core(world) && t in world.flight && t in cells && Handles(world, t) == 1
      modifies this
      ensures Valid() && world == Release(old(world), t)
      decreases |cells|, 0
    {
      ghost var w := world;
      match cells[t].waker
      case Some(TaskWaker(u)) =>
        FreedChain(w, t, u);
        Dealloc(t);
        DropRef(u);
      case _ =>
        FreedAlone(w, t);
        Dealloc(t);
    }

    /** Changes a cell, but not its count. */
    method UpdateCell(t: Id, c: Cell, ghost es: seq<Event>)
      requires Valid() && t in cells
      requires c.state.join == cells[t].state.join && c.state.refcount == cells[t].state.refcount
      modifies this
      ensures Valid() && world == Update(old(world), t, AsTask(c), es) && cells == old(cells)[t := c]
    {
      UpdateCounts(cells, world, t, c, es);
      cells := cells[t := c];
      world := Update(world, t, AsTask(c), es);
    }

    method Mark(t: Id) returns (r: NotifyResult)
      requires Valid() && t in cells && Handles(world, t) > 0
      modifies this
      ensures Valid() && t in old(world).tasks && t in cells
      ensures world == Marked(old(world), t) && Handles(world, t) > 0
      ensures var c := old(world).tasks[t];
              r == if c.complete || c.notified || c.running then DoNothing else SubmitTask
    {
      var c;
      c, r := MarkNotified(cells[t]);
      UpdateHandles(world, t, AsTask(c), [], t);
      UpdateCell(t, c, []);
    }

    /** Waking by reference. */
    method WakeByRef(t: Id)
      requires Valid() && t in cells && Handles(world, t) > 0
      modifies this
      ensures Valid() && t in old(world).tasks && world == Notify(old(world), t)
    {
      ghost var w := world;
      var r := Mark(t);
      if r == SubmitTask {
        NotifyIsPushing(w, t);
        CloneRef(t);
        Schedule(t);
      } else {
        NotifyIsMarking(w, t);
      }
    }

    /** Waking by value: the waker in flight is dropped after waking. */
    method WakeByVal(t: Id)
      requires Valid() && Core(world) && t in world.flight
      modifies this
      ensures Valid() && t in old(world).tasks && world == Release(Notify(old(world), t), t)
    {
      InFlightIsThere(world, t);
      NotifyIsCalm(world, t);
      LastIsUnjoined(world, t);
      WakeByRef(t);
      DropRef(t);
    }

    method TakeJoinWaker(t: Id) returns (k: Waker)
      requires Valid() && StoredExact(world) && t in cells && cells[t].waker.Some?
      modifies this
      ensures Valid() && t in old(world).tasks && old(world).tasks[t].waker == Some(k)
      ensures world == TakeWaker(old(world), t)
    {
      TakeWakerCounts(cells, world, t);
      TakeWakerMatches(world, t);
      k := cells[t].waker.value;
      cells := cells[t := cells[t].(waker := None)];
      world := TakeWaker(world, t);
    }

    /** Wakes by a waker in flight. A waker that is not one of ours does nothing here. */
    method Wake(k: Waker)
      requires Valid() && Core(world) && Target(Some(k)) <= world.flight
      modifies this
      ensures Valid() && world == WakeBy(old(world), k)
    {
      match k
      case TaskWaker(t) =>
        InFlightIsThere(world, t);
        WakeByVal(t);
      case Foreign(_) =>
    }

    /** Wakes the join handle, if it left a waker. */
    method NotifyJoinHandle(t: Id)
      requires Valid() && Core(world) && t in cells
      modifies this
      ensures Valid() && t in old(world).tasks && world == WakeJoin(old(world), t)
    {
      if cells[t].waker.Some? {
        TakeWakerIsCalm(world, t);
        var k := TakeJoinWaker(t);
        Wake(k);
      }
    }

    // ----- completing ---------------------------------------------------------------

    method Unlist(t: Id)
      requires Valid() && t in list
      modifies this
      ensures Valid() && world == Unlisted(old(world), t)
    {
      UnlistedCounts(cells, world, t);
      list := Without(list, t);
      size := size - 1;
      world := Unlisted(world, t);
    }

    /** Takes a task out of the task set, and drops the handle it held. */
    method Remove(t: Id)
      requires Valid() && Halting(world, t)
      modifies this
      ensures Valid() && world == Unbind(old(world), t)
    {
      if t in list {
        UnlistedIsSteady(world, t);
        Unlist(t);
        DropRef(t);
      }
    }

    method Finalize(t: Id) returns (r: CompleteTaskResult)
      requires Valid() && t in cells && Resulted(world, t) && cells[t].state.refcount > 0
      modifies this
      ensures Valid() && t in old(world).tasks && t in cells
      ensures world == Completed(old(world), t)
      ensures r == CompleteTaskResult.NotifyJoinHandle <==> old(world).tasks[t].join
    {
      CompletedInSteps(world, t);
      var c;
      c, r := CompleteTaskIn(cells[t]);
      UpdateCell(t, c, []);
      if r == DropOutput {
        UpdateCell(t, c.(slot := Empty), [Discarded(t)]);
      }
    }

    method CompleteTask(t: Id)
      requires Valid() && Core(world) && LogsOk(world) && OthersOk(world, t) && Resulted(world, t)
      modifies this
      ensures Valid() && t in old(world).tasks && world == Complete(old(world), t)
    {
      ghost var w := world;
      assert t in w.tasks <==> Handles(w, t) > 0;
      CompletedIsHalting(w, t);
      var r := Finalize(t);
      if r == CompleteTaskResult.NotifyJoinHandle {
        WakeJoinIsCalm(world, t);
        CalmKeepsHalting(world, WakeJoin(world, t), t);
        NotifyJoinHandle(t);
      }
      Remove(t);
    }

    /** Completes a task and drops its runnable. */
    method CompleteAndDrop(t: Id)
      requires Valid() && Core(world) && LogsOk(world) && OthersOk(world, t) && Resulted(world, t)
      requires t in world.flight
      modifies this
      ensures Valid() && t in old(world).tasks && world == Conclude(old(world), t)
    {
      CompleteKeeps(world, t);
      ReleaseIsSteady(Complete(world, t), t);
      CompleteTask(t);
      DropRef(t);
    }

    // ----- running ------------------------------------------------------------------

    /** The runnable has been popped and is now run. */
    method Prepare(t: Id) returns (r: PreparePollResult)
      requires Valid() && t in cells && t in world.held && TaskOk(world, t) && Handles(world, t) > 0
      modifies this
      ensures Valid() && t in old(world).tasks
      ensures var c := old(world).tasks[t]; var p := Passed(old(world), t);
              && r == (if c.complete then AlreadyComplete else if c.cancelled then AlreadyCancelled else PollNow)
              && world == if c.complete then p else Update(p, t, c.(running := true, notified := false), [])
    {
      PassedCounts(cells, world, t);
      world := Passed(world, t);
      var c;
      c, r := PreparePollIn(cells[t]);
      if r == AlreadyComplete {
        UpdateNothing(world, t, AsTask(c));
      }
      UpdateCell(t, c, []);
    }

    /** The future gives way to a result. */
    method Resolve(t: Id, o: Output)
      requires Valid() && t in cells
      modifies this
      ensures Valid() && t in old(world).tasks
      ensures world == Update(old(world), t, old(world).tasks[t].(slot := Result(o)), [Resolved(t)])
    {
      UpdateCell(t, cells[t].(slot := Result(o)), [Resolved(t)]);
    }

    /** The future of an aborted task is dropped, and the task completes. */
    method RunCancelled(t: Id, ghost w: World)
      requires Valid() && Inv(w) && t in w.tasks && t in w.held && !w.tasks[t].complete && w.tasks[t].cancelled
      requires world == Update(Passed(w, t), t, w.tasks[t].(running := true, notified := false), [])
      modifies this
      ensures Valid() && world == DoBegin(w, t)
    {
      CancellingInSteps(w, t);
      CancellingKeeps(w, t);
      Resolve(t, Cancelled);
      CompleteAndDrop(t);
    }

    ghost method EnterPoll(t: Id)
      requires Valid() && world.flight[t] >= 2
      modifies this`world
      ensures Valid() && world == Entered(old(world), t)
    {
      EnteredCounts(cells, world, t);
      world := Entered(world, t);
    }

    /** The context waker is made, and the poll of the future starts. */
    method RunPoll(t: Id, ghost w: World)
      requires Valid() && t in w.tasks && t in w.held && !w.tasks[t].complete && !w.tasks[t].cancelled
      requires world == Update(Passed(w, t), t, w.tasks[t].(running := true, notified := false), [])
      modifies this
      ensures Valid() && world == DoBegin(w, t)
    {
      PollingInSteps(w, t);
      LastIsUnjoined(world, t);
      CloneRef(t);
      EnterPoll(t);
    }

    /** Runs a popped runnable up to the poll of its future. */
    method Run(t: Id)
      requires Valid() && Inv(world) && t in world.held
      modifies this
      ensures Valid() && t in old(world).tasks && world == DoBegin(old(world), t) && Inv(world)
    {
      ghost var w := world;
      ListedIsThere(w);
      BeginKeeps(w, t);
      assert TaskOk(w, t);
      assert Handles(w, t) > 0;
      var r := Prepare(t);
      match r
      case AlreadyComplete =>
        PassedIsSteady(w, t);
        DropRef(t);
      case AlreadyCancelled => RunCancelled(t, w);
      case PollNow => RunPoll(t, w);
    }

    /** The innermost poll returns: its handles are in local variables again. */
    ghost method ReturnFromPoll()
      requires Valid() && world.stack != []
      modifies this`world
      ensures Valid() && world == Returned(old(world))
    {
      ReturnedCounts(cells, world);
      world := Returned(world);
    }

    /** The future has become a result: the context waker is dropped, the task completes
        and its runnable is dropped. */
    method FinishPoll(o: Output, t: Id, ghost w: World)
      requires Valid() && Inv(w) && w.stack != [] && Top(w) == t && t in w.tasks
      requires world == Resolving(w, o)
      modifies this
      ensures Valid() && world == Finish(Resolving(w, o), t)
    {
      ReturnedIsCore(w, world, o);
      SettledKeeps(w, o);
      RunningIsListed(w);
      FinishIsConclude(w, o);
      DropRef(t);
      CompleteAndDrop(t);
    }

    /** The future stays: the context waker is dropped, the task is queued again if it was
        notified, and its runnable is dropped. */
    method SuspendPoll(t: Id, again: bool, ghost w: World)
      requires Valid() && Inv(w) && w.stack != [] && Top(w) == t && t in w.tasks && !w.tasks[t].cancelled
      requires world == Suspended(w) && again == w.tasks[t].notified
      modifies this
      ensures Valid() && world == Suspend(Suspended(w), t)
    {
      WaitingIsSteady(w);
      SuspendedIsCore(w);
      WaitingInSteps(w, Dropping(world, t));
      SuspendIsWaiting(w);
      DropRef(t);
      if again {
        LastIsUnjoined(world, t);
        CloneRef(t);
        Schedule(t);
      }
      DropRef(t);
    }

    /** The result of the poll takes the place of the future. */
    method PollResolved(t: Id, o: Output)
      requires Valid() && Inv(world) && world.stack != [] && Top(world) == t && t in cells
      modifies this
      ensures Valid() && t in old(world).tasks && world == Finish(Resolving(old(world), o), t)
    {
      ghost var w := world;
      ResolvingInSteps(w, o);
      ReturnFromPoll();
      Resolve(t, o);
      FinishPoll(o, t, w);
    }

    /** The task is no longer running, and is suspended. */
    method PollSuspended(t: Id, c: Cell, again: bool)
      requires Valid() && Inv(world) && world.stack != [] && Top(world) == t && t in cells
      requires !cells[t].state.cancelled && again == cells[t].state.notified
      requires c == cells[t].(state := cells[t].state.(running := false))
      modifies this
      ensures Valid() && t in old(world).tasks && world == Suspend(Suspended(old(world)), t)
    {
      ghost var w := world;
      SuspendedInSteps(w);
      ReturnFromPoll();
      UpdateCell(t, c, []);
      SuspendPoll(t, again, w);
    }

    method MarkPolled(t: Id) returns (c: Cell, r: CompletePollResult)
      requires Valid() && t in cells && Handles(world, t) > 0 && cells[t].state.running
      ensures r == if cells[t].state.cancelled then CancelledDuringPoll
                   else if cells[t].state.notified then NotifiedDuringPoll else PollDone
      ensures c == if cells[t].state.cancelled then cells[t]
                   else cells[t].(state := cells[t].state.(running := false))
    {
      c, r := CompletePollIn(cells[t]);
    }

    /** The poll returned pending: the task is suspended, unless it was aborted meanwhile. */
    method PollPending(t: Id)
      requires Valid() && Inv(world) && world.stack != [] && Top(world) == t && t in cells
      requires Handles(world, t) > 0 && cells[t].state.running
      modifies this
      ensures Valid() && t in old(world).tasks && world == DoEnd(old(world), Pending)
    {
      PendingEnds(world);
      var c, r := MarkPolled(t);
      if r == CancelledDuringPoll {
        PollResolved(t, Cancelled);
      } else {
        PollSuspended(t, c, r == NotifiedDuringPoll);
      }
    }

    /** The innermost poll returns: with a result for the join handle, or to be polled again. */
    method PollReturns(t: Id, outcome: Outcome)
      requires Valid() && Inv(world) && world.stack != [] && Top(world) == t
      modifies this
      ensures Valid() && t in old(world).tasks && world == DoEnd(old(world), outcome) && Inv(world)
      ensures old(world).tasks[t].join ==> LeftBehind(old(world).tasks[t].cancelled, outcome, world, t)
    {
      RunningIsListed(world);
      OutcomeIsLeft(world, outcome);
      RunningIsCounted(world);
      EndKeeps(world, outcome);
      match outcome
      case Ready => PollResolved(t, Finished);
      case Panic => PollResolved(t, Panicked);
      case Pending => PollPending(t);
    }

    // ----- wakers and join handles --------------------------------------------------

    method WakeRef(t: Id)
      requires Valid() && Inv(world) && CanWake(world, t)
      modifies this
      ensures Valid() && t in old(world).tasks && world == Notify(old(world), t) && Inv(world)
    {
      CanWakeIsThere(world, t);
      NotifyIsSteady(world, t);
      WakeByRef(t);
    }

    ghost method Lift(t: Id)
      requires Valid() && t in world.wakers
      modifies this`world
      ensures Valid() && world == Lifted(old(world), t)
    {
      LiftedCounts(cells, world, t);
      world := Lifted(world, t);
    }

    method WakeVal(t: Id)
      requires Valid() && Inv(world) && t in world.wakers
      modifies this
      ensures Valid() && t in old(world).tasks && world == DoWakeVal(old(world), t) && Inv(world)
    {
      WakeValKeeps(world, t);
      WakerInFlight(world, t);
      Lift(t);
      WakeByVal(t);
    }

    method DropWaker(t: Id)
      requires Valid() && Inv(world) && t in world.wakers
      modifies this
      ensures Valid() && t in old(world).tasks && world == DoDropWaker(old(world), t) && Inv(world)
    {
      DropWakerKeeps(world, t);
      WakerInFlight(world, t);
      Lift(t);
      DropRef(t);
    }

    ghost method Give(t: Id)
      requires Valid() && t in world.flight
      modifies this`world
      ensures Valid() && world == Given(old(world), t)
    {
      GivenCounts(cells, world, t);
      world := Given(world, t);
    }

    method CloneWaker(t: Id)
      requires Valid() && Inv(world) && CanWake(world, t)
      modifies this
      ensures Valid() && t in old(world).tasks && Inv(world)
      ensures world == old(world).(wakers := old(world).wakers + multiset{t})
    {
      CanWakeIsThere(world, t);
      CloneWakerKeeps(world, t);
      GivenIsCloned(world, t);
      CloneRef(t);
      Give(t);
    }

    method MarkAborted(t: Id) returns (r: NotifyResult)
      requires Valid() && t in cells && cells[t].state.join && Handles(world, t) > 0
      modifies this
      ensures Valid() && t in old(world).tasks && t in cells && Handles(world, t) > 0
      ensures var c := old(world).tasks[t];
              && r == (if c.cancelled || c.complete || c.running || c.notified then DoNothing else SubmitTask)
              && world == Update(old(world), t, if c.cancelled || c.complete then c
                                                else c.(cancelled := true, notified := true), [])
    {
      var c;
      c, r := AbortIn(cells[t]);
      UpdateHandles(world, t, AsTask(c), [], t);
      UpdateCell(t, c, []);
    }

    method Abort(t: Id)
      requires Valid() && Inv(world) && t in world.tasks && world.tasks[t].join
      modifies this
      ensures Valid() && t in old(world).tasks && world == DoAbort(old(world), t) && Inv(world)
    {
      AbortKeeps(world, t);
      AbortIsMarking(world, t);
      var r := MarkAborted(t);
      if r == SubmitTask {
        CloneRef(t);
        Schedule(t);
      }
    }

    method DropJoinHandle(t: Id)
      requires Valid() && Inv(world) && t in world.tasks && world.tasks[t].join
      modifies this
      ensures Valid() && t in old(world).tasks && world == DoDropJoin(old(world), t) && Inv(world)
    {
      DropJoinKeeps(world, t);
      LettingIsSteady(world, t);
      ClearJoin(t);
      DropRef(t);
    }

    method ClearJoin(t: Id)
      requires Valid() && t in cells && cells[t].state.join
      modifies this
      ensures Valid() && t in old(world).tasks && world == Letting(old(world), t)
    {
      LettingCounts(cells, world, t);
      LettingMatches(world, t);
      assert Handles(world, t) > 0;
      var c := DropJoinHandleIn(cells[t]);
      cells := cells[t := c];
      world := Letting(world, t);
    }

    /** Polling the join handle: the result, or nothing yet. */
    method PollJoin(t: Id, k: Waker) returns (r: Option<Output>)
      requires Valid() && Inv(world) && Enabled(world, TaskModel.PollJoin(t, k))
      modifies this
      ensures Valid() && t in old(world).tasks && world == DoPollJoin(old(world), t, k) && Inv(world)
      ensures if old(world).tasks[t].complete then r.Some? && old(world).tasks[t].slot == Result(r.value)
              else r == None && Attended(world, t, k)
    {
      PollJoinKeeps(world, t, k);
      assert TaskOk(world, t);
      if cells[t].state.complete {
        var o := TakeOutput(t);
        r := Some(o);
      } else {
        SetWaker(t, k);
        r := None;
      }
    }

    method TakeOutput(t: Id) returns (o: Output)
      requires Valid() && t in cells && cells[t].state.complete && cells[t].slot.Result?
      modifies this
      ensures Valid() && t in old(world).tasks && old(world).tasks[t].slot == Result(o)
      ensures forall k :: world == DoPollJoin(old(world), t, k)
    {
      ClaimInSteps(world, t);
      o := cells[t].slot.output;
      UpdateCell(t, cells[t].(slot := Empty), [Delivered(t)]);
      ClaimedCounts(cells, world, t);
      world := Claimed(world, t);
    }

    /** Keeps a clone of the waker, unless the one that is there would wake the same. */
    method SetWaker(t: Id, k: Waker)
      requires Valid() && Inv(world) && Enabled(world, TaskModel.PollJoin(t, k)) && !world.tasks[t].complete
      modifies this
      ensures Valid() && t in old(world).tasks && world == DoPollJoin(old(world), t, k)
      ensures Attended(world, t, k)
    {
      PendingJoinAttends(world, t, k);
      var existing := cells[t].waker;
      if existing != Some(k) {
        StoredIsSteady(world, t, k);
        StoreWaker(t, k);
        if existing.Some? && existing.value.TaskWaker? {
          InFlightIsThere(world, existing.value.task);
          DropRef(existing.value.task);
        }
      }
    }

    method StoreWaker(t: Id, k: Waker)
      requires Valid() && Live(world) && StoredExact(world) && t in cells && Usable(world, k)
      modifies this
      ensures Valid() && t in old(world).tasks && world == Stored(old(world), t, k)
    {
      ghost var w := world;
      if k.TaskWaker? {
        CanWakeIsThere(world, k.task);
        CloneRef(k.task);
      }
      PutWaker(t, k, w);
    }

    method PutWaker(t: Id, k: Waker, ghost w: World)
      requires Valid() && world == Held(k, w) && StoredExact(w) && t in cells
      modifies this
      ensures Valid() && t in w.tasks && world == Stored(w, t, k)
    {
      StoredCounts(cells, w, t, k);
      StoredMatches(w, t, k);
      cells := cells[t := cells[t].(waker := Some(k))];
      world := Stored(w, t, k);
    }

    // ----- spawning and shutting down -----------------------------------------------

    method Allocate() returns (t: Id)
      requires Valid() && Core(world)
      modifies this
      ensures Valid() && t == old(world).next && world == Allocated(old(world)) && closed == old(closed)
    {
      AllocatedCounts(cells, world);
      t := next;
      var s := new State.New();
      cells := cells[t := Cell(s.Get(), Future, None)];
      next := next + 1;
      world := Allocated(world);
    }

    /** Shuts a cell down: its future, if any is left, gives way to a result. */
    method ShutdownTask(t: Id)
      requires Valid() && t in cells && cells[t].state.refcount > 0 && !cells[t].state.running
      modifies this
      ensures Valid() && t in old(world).tasks
      ensures var c := old(world).tasks[t].(cancelled := true, complete := true);
              world == if old(world).tasks[t].complete then Update(old(world), t, c, [])
                       else Update(Update(old(world), t, c, []), t, c.(slot := Result(Cancelled)), [Resolved(t)])
    {
      var c, done := ShutdownIn(cells[t]);
      UpdateCell(t, c, []);
      if !done {
        Resolve(t, Cancelled);
      }
    }

    /** A task spawned after the shutdown is cancelled at once. */
    method SpawnClosed(t: Id, ghost w: World)
      requires Valid() && Inv(w) && w.closed && t == w.next && world == Allocated(w)
      modifies this
      ensures Valid() && world == DoSpawn(w)
    {
      ClosedSpawnInSteps(w);
      AllocatedHandles(w, t);
      ShutdownTask(t);
      ShutSpawnIsCore(w, world);
      DropRef(t);
    }

    method List(t: Id)
      requires Valid() && t in world.flight
      modifies this
      ensures Valid() && world == Listed(old(world), t)
    {
      ListedCounts(cells, world, t);
      list := list + [t];
      size := size + 1;
      world := Listed(world, t);
    }

    method SpawnOpen(t: Id, ghost w: World)
      requires Valid() && Inv(w) && !w.closed && t == w.next && world == Allocated(w)
      modifies this
      ensures Valid() && world == DoSpawn(w)
    {
      OpenSpawnInSteps(w);
      AllocatedHandles(w, t);
      CloneRef(t);
      List(t);
      Schedule(t);
    }

    /** Spawns a task, and returns its join handle. */
    method Spawn() returns (t: Id)
      requires Valid() && Inv(world)
      modifies this
      ensures Valid() && world == DoSpawn(old(world)) && Inv(world) && t == old(world).next
    {
      ghost var w := world;
      SpawnKeeps(w);
      t := Allocate();
      if closed {
        SpawnClosed(t, w);
      } else {
        SpawnOpen(t, w);
      }
    }

    /** Pops the next runnable. */
    method Next() returns (r: Option<Id>)
      requires Valid() && Inv(world)
      modifies this
      ensures Valid() && world == DoNext(old(world)) && Inv(world)
      ensures r == if old(world).queue == [] then None else Some(old(world).queue[0])
    {
      NextKeeps(world);
      NextCounts(cells, world);
      r := None;
      if runqueue != [] {
        r := Some(runqueue[0]);
        runqueue := runqueue[1..];
        world := DoNext(world);
      }
    }

    method PopFirst() returns (t: Id)
      requires Valid() && list != []
      modifies this
      ensures Valid() && old(world).list != [] && t == old(world).list[0] && world == Popped(old(world))
    {
      PoppedCounts(cells, world);
      t := list[0];
      list := list[1..];
      size := size - 1;
      world := Popped(world);
    }

    /** Shuts the first task of the task set down and drops its handle. */
    method ShutdownFirst()
      requires Valid() && Steady(world) && world.stack == [] && list != []
      modifies this
      ensures Valid() && old(world).list != [] && world == CancelFirst(old(world))
    {
      ghost var w := world;
      ListedIsThere(w);
      assert TaskOk(w, w.list[0]);
      ShutFirstInSteps(w);
      ShutFirstKeeps(w);
      PoppedIsCounted(w);
      var t := PopFirst();
      ShutdownTask(t);
      DropRef(t);
    }

    method Close()
      requires Valid()
      modifies this
      ensures Valid() && world == old(world).(closed := true)
    {
      ClosedCounts(cells, world);
      closed := true;
      world := world.(closed := true);
    }

    /** Shuts the task set down: no more tasks are bound, and those left are cancelled. */
    method ShutdownTasks()
      requires Valid() && Inv(world) && world.stack == []
      modifies this
      ensures Valid() && world == CancelAll(old(world).(closed := true))
    {
      ClosedIsSteady(world);
      Close();
      ghost var w := world;
      while list != []
        invariant Valid() && Steady(world) && world.stack == [] && world.flight == multiset{}
        invariant CancelAll(world) == CancelAll(w)
        decreases |list|
      {
        CancelFirstKeeps(world);
        ShutdownFirst();
      }
    }

    method UnqueueFirst() returns (t: Id)
      requires Valid() && runqueue != []
      modifies this
      ensures Valid() && old(world).queue != [] && t == old(world).queue[0] && world == Unqueued(old(world))
    {
      UnqueuedCounts(cells, world);
      t := runqueue[0];
      runqueue := runqueue[1..];
      world := Unqueued(world);
    }

    /** Shuts the task set down and drops the runnables that are queued. */
    method Shutdown()
      requires Valid() && Inv(world) && world.stack == []
      modifies this
      ensures Valid() && world == DoShutdown(old(world)) && Inv(world)
    {
      ShutdownKeeps(world);
      ClosedIsSteady(world);
      CancelAllKeeps(world.(closed := true));
      ShutdownTasks();
      ghost var w := world;
      while runqueue != []
        invariant Valid() && Steady(world) && world.list == [] && world.flight == multiset{}
        invariant DropQueue(world) == DropQueue(w)
        decreases |runqueue|
      {
        DropFirstKeeps(world);
        var t := UnqueueFirst();
        DropRef(t);
      }
    }
  }
}
