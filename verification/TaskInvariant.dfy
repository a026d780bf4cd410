/** The invariant of the task system, and the proof that dropping handles keeps it. */
module TaskInvariant {
  import opened Wrappers
  import opened TaskModel

  /** The runnables of a task that are queued or popped. */
  function Runnables(w: World, t: Id): nat {
    multiset(w.queue)[t] + w.held[t]
  }

  /** The cells in which a waker of the task is stored. */
  function Holders(tasks: map<Id, Task>, t: Id): set<Id> {
    set u | u in tasks && tasks[u].waker == Some(TaskWaker(t))
  }

  function Count(log: seq<Event>, e: Event): nat {
    multiset(log)[e]
  }

  /** The cells that exist are exactly those with a handle: no cell is lost, none dangles. */
  ghost predicate Live(w: World) {
    forall t :: t in w.tasks <==> Handles(w, t) > 0
  }

  ghost predicate StoredExact(w: World) {
    forall t :: w.stored[t] == |Holders(w.tasks, t)|
  }

  predicate HasFuture(w: World, t: Id) {
    t in w.tasks && w.tasks[t].slot.Future?
  }

  predicate HasResult(w: World, t: Id) {
    t in w.tasks && w.tasks[t].slot.Result?
  }

  /** The future of a task is dropped once, when a result takes its place; the result
      is delivered or discarded, never both and never twice. */
  predicate LogOk(w: World, t: Id) {
    && Count(w.log, Resolved(t)) == (if t < w.next && !HasFuture(w, t) then 1 else 0)
    && Count(w.log, Delivered(t)) + Count(w.log, Discarded(t)) + (if HasResult(w, t) then 1 else 0)
       == Count(w.log, Resolved(t))
  }

  ghost predicate LogsOk(w: World) {
    forall t :: LogOk(w, t)
  }

  /** What holds even in the middle of an operation. */
  ghost predicate Core(w: World) {
    && Live(w) && StoredExact(w)
    && (forall t :: t in w.tasks || t in w.claimed ==> t < w.next)
    && (forall t :: HasFuture(w, t) ==> t in w.list)
  }

  /** The flags of a task agree with its runnables and with what its cell holds. */
  predicate Scheduled(w: World, t: Id)
    requires t in w.tasks
  {
    var c := w.tasks[t];
    && multiset(w.stack)[t] == (if c.running then 1 else 0)
    && (!c.complete ==> Runnables(w, t) == if c.notified && !c.running then 1 else 0)
    && (c.complete ==> !c.running && Runnables(w, t) <= if c.notified then 1 else 0)
    && (c.cancelled && !c.complete ==> c.notified)
    && (c.slot.Future? <==> !c.complete)
    && (t in w.claimed ==> c.complete)
    && (c.complete && c.join && t !in w.claimed ==> c.slot.Result?)
  }

  /** What holds of one task between operations: moreover the task set holds exactly
      the incomplete tasks. */
  predicate TaskOk(w: World, t: Id)
    requires t in w.tasks
  {
    Scheduled(w, t) && multiset(w.list)[t] == if w.tasks[t].complete then 0 else 1
  }

  ghost predicate OthersOk(w: World, t: Id) {
    forall x :: x in w.tasks && x != t ==> TaskOk(w, x)
  }

  /** Whatever handles are in flight, every task is as it is between operations. */
  ghost predicate Steady(w: World) {
    && Core(w) && LogsOk(w)
    && (forall t :: t in w.tasks ==> TaskOk(w, t))
  }

  ghost predicate Inv(w: World) {
    Steady(w) && w.flight == multiset{} && (w.closed ==> w.list == [])
  }

  // ----- small steps ----------------------------------------------------------------

  lemma HoldersOfPut(tasks: map<Id, Task>, t: Id, c: Task, x: Id)
    ensures Holders(tasks[t := c], x)
         == if c.waker == Some(TaskWaker(x)) then Holders(tasks, x) + {t} else Holders(tasks, x) - {t}
  {
  }

  lemma HoldersOfRemove(tasks: map<Id, Task>, t: Id, x: Id)
    ensures Holders(tasks - {t}, x) == Holders(tasks, x) - {t}
  {
  }

  /** Changing a cell without touching its waker. */
  lemma PutKeepsStored(w: World, t: Id, c: Task)
    requires StoredExact(w) && (if t in w.tasks then c.waker == w.tasks[t].waker else c.waker == None)
    ensures forall x :: w.stored[x] == |Holders(w.tasks[t := c], x)|
  {
    forall x ensures w.stored[x] == |Holders(w.tasks[t := c], x)| {
      HoldersOfPut(w.tasks, t, c, x);
      assert w.stored[x] == |Holders(w.tasks, x)|;
      assert Holders(w.tasks[t := c], x) == Holders(w.tasks, x);
    }
  }

  lemma CountOne(log: seq<Event>, e: Event, f: Event)
    ensures Count(log + [e], f) == Count(log, f) + if f == e then 1 else 0
  {
  }

  /** Only handles in flight, stored wakers and freed cells change. */
  ghost predicate Shrunk(w: World, w': World) {
    && w' == w.(tasks := w'.tasks, stored := w'.stored, flight := w'.flight, log := w'.log)
    && (forall x :: x in w'.tasks ==> x in w.tasks && w'.tasks[x] == w.tasks[x])
    && (forall e: Event :: !e.Discarded? ==> Count(w'.log, e) == Count(w.log, e))
    && (forall e: Event :: Count(w'.log, e) >= Count(w.log, e))
  }

  lemma ShrunkTransitive(a: World, b: World, c: World)
    requires Shrunk(a, b) && Shrunk(b, c)
    ensures Shrunk(a, c)
  {
  }

  lemma ShrunkKeepsTask(w: World, w': World, t: Id)
    requires Shrunk(w, w') && t in w'.tasks && Scheduled(w, t)
    ensures Scheduled(w', t)
  {
  }

  lemma FreedHandles(w: World, t: Id, x: Id)
    requires t in w.tasks && t in w.flight && x != t
    requires Target(w.tasks[t].waker) <= w.stored
    ensures Handles(Freed(w, t), x) == Handles(w, x)
    ensures x in Freed(w, t).tasks <==> x in w.tasks
  {
  }

  lemma StoredWakerIsCounted(w: World, t: Id)
    requires StoredExact(w) && t in w.tasks
    ensures Target(w.tasks[t].waker) <= w.stored
  {
    match w.tasks[t].waker
    case Some(TaskWaker(u)) =>
      assert t in Holders(w.tasks, u);
      assert w.stored[u] == |Holders(w.tasks, u)|;
    case _ =>
  }

  lemma FreedIsLive(w: World, t: Id)
    requires Live(w) && StoredExact(w) && t in w.flight && t in w.tasks && Handles(w, t) == 1
    ensures Live(Freed(w, t)) && t !in Target(w.tasks[t].waker)
  {
    var w' := Freed(w, t);
    StoredWakerIsCounted(w, t);
    forall x ensures x in w'.tasks <==> Handles(w', x) > 0 {
      assert x in w.tasks <==> Handles(w, x) > 0;
      if x != t {
        FreedHandles(w, t, x);
      }
    }
  }

  lemma FreedIsStored(w: World, t: Id)
    requires StoredExact(w) && t in w.tasks
    ensures StoredExact(Freed(w, t))
  {
    var w' := Freed(w, t);
    forall x ensures w'.stored[x] == |Holders(w'.tasks, x)| {
      HoldersOfRemove(w.tasks, t, x);
      assert w.stored[x] == |Holders(w.tasks, x)|;
    }
  }

  lemma FreedIsShrunk(w: World, t: Id)
    requires t in w.tasks
    ensures Shrunk(w, Freed(w, t))
  {
    forall f { CountOne(w.log, Discarded(t), f); }
  }

  lemma FreedKeepsLogs(w: World, t: Id)
    requires LogsOk(w) && t in w.tasks && t < w.next && !HasFuture(w, t)
    ensures LogsOk(Freed(w, t))
  {
    forall x ensures LogOk(Freed(w, t), x) {
      assert LogOk(w, x);
      CountOne(w.log, Discarded(t), Resolved(x));
      CountOne(w.log, Discarded(t), Delivered(x));
      CountOne(w.log, Discarded(t), Discarded(x));
    }
  }

  /** What dropping one handle in flight leaves. */
  ghost predicate Dropped(w: World, t: Id, w': World) {
    && Core(w') && Shrunk(w, w') && (LogsOk(w) ==> LogsOk(w'))
    && w'.flight == w.flight - multiset{t}
    && (Handles(w, t) > 1 ==> t in w'.tasks)
  }

  lemma FlightDownIsCore(w: World, t: Id)
    requires Core(w) && t in w.flight && Handles(w, t) > 1
    ensures Core(w.(flight := w.flight - multiset{t}))
  {
    var w' := w.(flight := w.flight - multiset{t});
    forall x ensures x in w'.tasks <==> Handles(w', x) > 0 {
      assert x in w.tasks <==> Handles(w, x) > 0;
    }
    assert forall x :: HasFuture(w', x) ==> HasFuture(w, x);
  }

  /** A handle in flight that is not the last one just goes. */
  lemma FlightDown(w: World, t: Id)
    requires Core(w) && t in w.flight && Handles(w, t) > 1
    ensures Dropped(w, t, w.(flight := w.flight - multiset{t}))
  {
    FlightDownIsCore(w, t);
    assert t in w.tasks <==> Handles(w, t) > 0;
    assert forall x :: LogOk(w, x) ==> LogOk(w.(flight := w.flight - multiset{t}), x);
  }

  /** The last handle takes the cell with it. */
  lemma LastHandle(w: World, t: Id)
    requires Core(w) && t in w.flight && Handles(w, t) == 1
    ensures t in w.tasks && Core(Freed(w, t)) && Shrunk(w, Freed(w, t))
    ensures LogsOk(w) ==> LogsOk(Freed(w, t))
    ensures t !in Target(w.tasks[t].waker)
    ensures Target(w.tasks[t].waker) == multiset{} ==> Dropped(w, t, Freed(w, t))
  {
    assert t in w.tasks <==> Handles(w, t) > 0;
    FreedIsLive(w, t);
    FreedIsStored(w, t);
    FreedIsShrunk(w, t);
    assert !HasFuture(w, t);
    if LogsOk(w) {
      FreedKeepsLogs(w, t);
    }
    assert forall x :: HasFuture(Freed(w, t), x) ==> HasFuture(w, x);
  }

  lemma DroppedAfterFreed(w: World, t: Id, u: Id, w': World)
    requires Core(w) && t in w.flight && Handles(w, t) == 1
    requires t in w.tasks && w.tasks[t].waker == Some(TaskWaker(u))
    requires Dropped(Freed(w, t), u, w')
    ensures Dropped(w, t, w')
  {
    LastHandle(w, t);
    ShrunkTransitive(w, Freed(w, t), w');
    assert w.flight - multiset{t} + multiset{u} - multiset{u} == w.flight - multiset{t};
  }

  /** A task with a handle in flight is there. */
  lemma InFlightIsThere(w: World, t: Id)
    requires Live(w) && t in w.flight
    ensures t in w.tasks
  {
    assert t in w.tasks <==> Handles(w, t) > 0;
  }

  /** Dropping a handle in flight frees exactly the cells that have no handle left. */
  lemma {:induction false} ReleaseKeeps(w: World, t: Id)
    requires Core(w) && t in w.flight
    ensures t in w.tasks && Dropped(w, t, Release(w, t))
    decreases |w.tasks|
  {
    InFlightIsThere(w, t);
    if Handles(w, t) > 1 {
      FlightDown(w, t);
    } else {
      LastHandle(w, t);
      match w.tasks[t].waker
      case Some(TaskWaker(u)) =>
        InFlightIsThere(Freed(w, t), u);
        ReleaseKeeps(Freed(w, t), u);
        DroppedAfterFreed(w, t, u, Release(Freed(w, t), u));
      case _ =>
    }
  }
}
