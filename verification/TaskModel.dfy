/** The task system in terms of the handles that exist, without reference counts.

    A task cell lives as long as some handle to it does: a runnable that is queued,
    popped or running, its place in the task set, its join handle, a waker held
    outside, a waker stored in some cell, or a handle in flight inside an operation.
    The runtime of `TaskRuntime` only counts; the operations here say what the
    counting stands for. */
module TaskModel {
  import opened Bags
  import opened Wrappers

  type Id = nat

  datatype Output = Finished | Panicked | Cancelled

  /** What a future cell holds. */
  datatype Slot = Future | Result(output: Output) | Empty

  datatype Waker = TaskWaker(task: Id) | Foreign(n: nat)

  datatype Task = Task(notified: bool, running: bool, complete: bool, join: bool, cancelled: bool,
                       slot: Slot, waker: Option<Waker>)

  datatype Event =
    | PollStarted(t: Id)
    | Resolved(t: Id)              // the future is dropped and a result takes its place
    | Delivered(t: Id)             // the result is handed to the join handle
    | Discarded(t: Id)             // the result is dropped
    | JoinWoken(t: Id, k: Waker)   // the waker of the join handle is woken

  datatype World = World(
    tasks: map<Id, Task>,
    queue: seq<Id>,          // runnables waiting to be popped
    held: multiset<Id>,      // runnables popped and not run yet
    stack: seq<Id>,          // tasks being polled, the innermost last
    list: seq<Id>,           // the task set
    closed: bool,            // the task set accepts no more tasks
    wakers: multiset<Id>,    // wakers held outside the runtime
    stored: multiset<Id>,    // wakers stored in the cells
    flight: multiset<Id>,    // handles in flight inside an operation
    claimed: set<Id>,        // tasks whose join handle has returned a result
    next: Id,
    log: seq<Event>)

  const EmptyWorld := World(map[], [], multiset{}, [], [], false, multiset{}, multiset{}, multiset{}, {}, 0, [])

  /** The handles to a task. A task being polled is held by its runnable and by the
      waker of its poll context. */
  function Handles(w: World, t: Id): nat {
    multiset(w.queue)[t] + w.held[t] + 2 * multiset(w.stack)[t] + multiset(w.list)[t]
    + (if t in w.tasks && w.tasks[t].join then 1 else 0)
    + w.wakers[t] + w.stored[t] + w.flight[t]
  }

  // ----- the pieces operations are made of ------------------------------------------

  /** Waking: an incomplete task is marked, and queued unless it is marked or running. */
  function Notify(w: World, t: Id): World
    requires t in w.tasks
  {
    var c := w.tasks[t];
    if c.complete || c.notified then w
    else
      w.(tasks := w.tasks[t := c.(notified := true)], queue := if c.running then w.queue else w.queue + [t])
  }

  /** The task a stored waker belongs to, if any. */
  function Target(k: Option<Waker>): multiset<Id> {
    match k
    case Some(TaskWaker(u)) => multiset{u}
    case _ => multiset{}
  }

  /** The last handle, in flight, is gone: the cell is freed, which drops the result it
      may hold and puts the waker stored in it in flight. */
  function Freed(w: World, t: Id): World
    requires t in w.tasks
  {
    var c := w.tasks[t];
    w.(tasks := w.tasks - {t},
       stored := w.stored - Target(c.waker),
       flight := w.flight - multiset{t} + Target(c.waker),
       log := w.log + if c.slot.Result? then [Discarded(t)] else [])
  }

  /** Drops a handle in flight. The last one frees the cell, and with it the waker
      stored there, which may be the last handle of another task. */
  function Release(w: World, t: Id): World
    requires t in w.tasks
    decreases |w.tasks|
  {
    if Handles(w, t) > 1 then w.(flight := w.flight - multiset{t})
    else
      match w.tasks[t].waker
      case Some(TaskWaker(u)) => if u in Freed(w, t).tasks then Release(Freed(w, t), u) else Freed(w, t)
      case _ => Freed(w, t)
  }

  /** Takes the waker of the join handle, which is then in flight. */
  function TakeWaker(w: World, t: Id): World
    requires t in w.tasks && w.tasks[t].waker.Some?
  {
    var c := w.tasks[t];
    w.(tasks := w.tasks[t := c.(waker := None)],
       stored := w.stored - Target(c.waker),
       flight := w.flight + Target(c.waker),
       log := w.log + [JoinWoken(t, c.waker.value)])
  }

  /** Waking by a waker in flight: its task is marked and the waker dropped. */
  function WakeBy(w: World, k: Waker): World {
    if k.TaskWaker? && k.task in w.tasks then Release(Notify(w, k.task), k.task) else w
  }

  /** Wakes the join handle, if it left a waker. */
  function WakeJoin(w: World, t: Id): World
    requires t in w.tasks
  {
    if w.tasks[t].waker.None? then w else WakeBy(TakeWaker(w, t), w.tasks[t].waker.value)
  }

  /** Taken out of the task set, the handle is in flight. */
  function Unlisted(w: World, t: Id): World {
    w.(list := Without(w.list, t), flight := w.flight + multiset{t})
  }

  /** Takes a task out of the task set. */
  function Unbind(w: World, t: Id): World {
    if t in w.list && t in w.tasks then Release(Unlisted(w, t), t) else w
  }

  /** The flags of a task are set to complete. Without a join handle the result is dropped. */
  function Completed(w: World, t: Id): World
    requires t in w.tasks
  {
    var c := w.tasks[t].(complete := true, running := false);
    if c.join then w.(tasks := w.tasks[t := c])
    else w.(tasks := w.tasks[t := c.(slot := Empty)], log := w.log + [Discarded(t)])
  }

  /** The end of a task whose result is in place. */
  function Complete(w: World, t: Id): World
    requires t in w.tasks
  {
    Unbind(if w.tasks[t].join then WakeJoin(Completed(w, t), t) else Completed(w, t), t)
  }

  function Drop(w: World, t: Id): World {
    if t in w.tasks then Release(w, t) else w
  }

  // ----- operations -----------------------------------------------------------------

  datatype Outcome = Ready | Panic | Pending

  datatype Op =
    | Spawn
    | Next
    | Begin(t: Id)
    | End(outcome: Outcome)
    | WakeRef(t: Id)
    | WakeVal(t: Id)
    | CloneWaker(t: Id)
    | DropWaker(t: Id)
    | Abort(t: Id)
    | PollJoin(t: Id, waker: Waker)
    | DropJoin(t: Id)
    | Shutdown

  function DoSpawn(w: World): World {
    var t := w.next;
    if w.closed then
      w.(tasks := w.tasks[t := Task(true, false, true, true, true, Result(Cancelled), None)],
         next := t + 1, log := w.log + [Resolved(t)])
    else
      w.(tasks := w.tasks[t := Task(true, false, false, true, false, Future, None)],
         queue := w.queue + [t], list := w.list + [t], next := t + 1)
  }

  /** Popping the next runnable. */
  function DoNext(w: World): World {
    if w.queue == [] then w
    else w.(queue := w.queue[1..], held := w.held + multiset{w.queue[0]})
  }

  /** A popped runnable is put in flight. */
  function Passed(w: World, t: Id): World {
    w.(held := w.held - multiset{t}, flight := w.flight + multiset{t})
  }

  /** The run of an aborted task drops the future instead of polling it. */
  function Cancelling(w: World, t: Id): World
    requires t in w.tasks
  {
    w.(tasks := w.tasks[t := w.tasks[t].(running := true, notified := false, slot := Result(Cancelled))],
       held := w.held - multiset{t}, flight := w.flight + multiset{t}, log := w.log + [Resolved(t)])
  }

  /** The poll of the future starts. */
  function Polling(w: World, t: Id): World
    requires t in w.tasks
  {
    w.(tasks := w.tasks[t := w.tasks[t].(running := true, notified := false)],
       held := w.held - multiset{t}, stack := w.stack + [t], log := w.log + [PollStarted(t)])
  }

  /** Running a popped runnable, up to the point where the future is polled. */
  function DoBegin(w: World, t: Id): World
    requires t in w.tasks
  {
    var c := w.tasks[t];
    if c.complete then Release(Passed(w, t), t)
    else if c.cancelled then Conclude(Cancelling(w, t), t)
    else Polling(w, t)
  }

  /** Completes the task and drops its runnable. */
  function Conclude(w: World, t: Id): World
    requires t in w.tasks
  {
    Drop(Complete(w, t), t)
  }

  /** The innermost task being polled. */
  function Top(w: World): Id
    requires w.stack != []
  {
    w.stack[|w.stack| - 1]
  }

  /** The innermost poll returned pending: its runnable and its context waker are handed
      back. */
  function Suspended(w: World): World
    requires w.stack != [] && Top(w) in w.tasks
  {
    var t := Top(w);
    w.(tasks := w.tasks[t := w.tasks[t].(running := false)],
       stack := w.stack[..|w.stack| - 1], flight := w.flight + multiset{t, t})
  }

  /** The innermost poll returned for good: a result takes the place of the future. */
  function Resolving(w: World, o: Output): World
    requires w.stack != [] && Top(w) in w.tasks
  {
    var t := Top(w);
    w.(tasks := w.tasks[t := w.tasks[t].(slot := Result(o))], stack := w.stack[..|w.stack| - 1],
       flight := w.flight + multiset{t, t}, log := w.log + [Resolved(t)])
  }

  function Requeued(w: World, t: Id, again: bool): World {
    w.(queue := if again then w.queue + [t] else w.queue)
  }

  /** Drops the context waker, queues the task again if it was notified, and drops the
      runnable. */
  function Suspend(w: World, t: Id): World
    requires t in w.tasks
  {
    Drop(Requeued(Release(w, t), t, w.tasks[t].notified), t)
  }

  /** Drops the context waker, completes the task and drops the runnable. */
  function Finish(w: World, t: Id): World
    requires t in w.tasks
  {
    var w' := Release(w, t);
    if t in w'.tasks then Conclude(w', t) else w'
  }

  /** The innermost poll returns. A task aborted meanwhile is not suspended. */
  function DoEnd(w: World, outcome: Outcome): World
    requires w.stack != [] && Top(w) in w.tasks
  {
    match outcome
    case Ready => Finish(Resolving(w, Finished), Top(w))
    case Panic => Finish(Resolving(w, Panicked), Top(w))
    case Pending =>
      if w.tasks[Top(w)].cancelled then Finish(Resolving(w, Cancelled), Top(w))
      else Suspend(Suspended(w), Top(w))
  }

  /** A waker held outside is put in flight. */
  function Lifted(w: World, t: Id): World {
    w.(wakers := w.wakers - multiset{t}, flight := w.flight + multiset{t})
  }

  function DoWakeVal(w: World, t: Id): World
    requires t in w.tasks
  {
    Release(Notify(Lifted(w, t), t), t)
  }

  function DoDropWaker(w: World, t: Id): World
    requires t in w.tasks
  {
    Release(Lifted(w, t), t)
  }

  function DoAbort(w: World, t: Id): World
    requires t in w.tasks
  {
    var c := w.tasks[t];
    if c.cancelled || c.complete then w
    else
      w.(tasks := w.tasks[t := c.(cancelled := true, notified := true)],
         queue := if c.running || c.notified then w.queue else w.queue + [t])
  }

  /** A new waker of the join handle is stored, the old one in flight. */
  function Stored(w: World, t: Id, k: Waker): World
    requires t in w.tasks
  {
    var c := w.tasks[t];
    w.(tasks := w.tasks[t := c.(waker := Some(k))],
       stored := w.stored + Target(Some(k)) - Target(c.waker),
       flight := w.flight + Target(c.waker))
  }

  /** Polling the join handle: the result, or the waker is stored. */
  function DoPollJoin(w: World, t: Id, k: Waker): World
    requires t in w.tasks
  {
    var c := w.tasks[t];
    if c.complete then
      w.(tasks := w.tasks[t := c.(slot := Empty)], claimed := w.claimed + {t}, log := w.log + [Delivered(t)])
    else if c.waker == Some(k) then w
    else if c.waker.Some? && c.waker.value.TaskWaker? then Drop(Stored(w, t, k), c.waker.value.task)
    else Stored(w, t, k)
  }

  /** The flag of the join handle is cleared, and the handle in flight. */
  function Letting(w: World, t: Id): World
    requires t in w.tasks
  {
    w.(tasks := w.tasks[t := w.tasks[t].(join := false)], flight := w.flight + multiset{t})
  }

  function DoDropJoin(w: World, t: Id): World
    requires t in w.tasks
  {
    Release(Letting(w, t), t)
  }

  /** The first task of the task set is shut down and taken out. */
  function ShutFirst(w: World): World
    requires w.list != [] && w.list[0] in w.tasks
  {
    var t := w.list[0];
    var c := w.tasks[t];
    var c' := if c.complete then c.(cancelled := true)
              else c.(cancelled := true, complete := true, slot := Result(Cancelled));
    w.(tasks := w.tasks[t := c'], list := w.list[1..], flight := w.flight + multiset{t},
       log := w.log + if c.complete then [] else [Resolved(t)])
  }

  function CancelFirst(w: World): World
    requires w.list != []
  {
    if w.list[0] in w.tasks then Release(ShutFirst(w), w.list[0]) else w.(list := w.list[1..])
  }

  function CancelAll(w: World): World
    decreases |w.list|
  {
    if w.list == [] then w
    else
      var w' := CancelFirst(w);
      if |w'.list| < |w.list| then CancelAll(w') else w'
  }

  function Unqueued(w: World): World
    requires w.queue != []
  {
    w.(queue := w.queue[1..], flight := w.flight + multiset{w.queue[0]})
  }

  function DropFirst(w: World): World
    requires w.queue != []
  {
    Drop(Unqueued(w), w.queue[0])
  }

  function DropQueue(w: World): World
    decreases |w.queue|
  {
    if w.queue == [] then w
    else
      var w' := DropFirst(w);
      if |w'.queue| < |w.queue| then DropQueue(w') else w'
  }

  function DoShutdown(w: World): World {
    DropQueue(CancelAll(w.(closed := true)))
  }

  /** A waker of the task is at hand: one held outside, or that of a poll in progress. */
  predicate CanWake(w: World, t: Id) {
    t in w.wakers || t in w.stack
  }

  predicate Usable(w: World, k: Waker) {
    k.TaskWaker? ==> CanWake(w, k.task)
  }

  /** What the handles that exist allow to be done. */
  predicate Enabled(w: World, op: Op) {
    match op
    case Spawn => true
    case Next => true
    case Begin(t) => t in w.held && t in w.tasks
    case End(_) => w.stack != [] && Top(w) in w.tasks
    case WakeRef(t) => CanWake(w, t) && t in w.tasks
    case WakeVal(t) => t in w.wakers && t in w.tasks
    case CloneWaker(t) => CanWake(w, t) && t in w.tasks
    case DropWaker(t) => t in w.wakers && t in w.tasks
    case Abort(t) => t in w.tasks && w.tasks[t].join
    case PollJoin(t, k) => t in w.tasks && w.tasks[t].join && t !in w.claimed && Usable(w, k)
    case DropJoin(t) => t in w.tasks && w.tasks[t].join
    case Shutdown => w.stack == []
  }

  function Step(w: World, op: Op): World
    requires Enabled(w, op)
  {
    match op
    case Spawn => DoSpawn(w)
    case Next => DoNext(w)
    case Begin(t) => DoBegin(w, t)
    case End(outcome) => DoEnd(w, outcome)
    case WakeRef(t) => Notify(w, t)
    case WakeVal(t) => DoWakeVal(w, t)
    case CloneWaker(t) => w.(wakers := w.wakers + multiset{t})
    case DropWaker(t) => DoDropWaker(w, t)
    case Abort(t) => DoAbort(w, t)
    case PollJoin(t, k) => DoPollJoin(w, t, k)
    case DropJoin(t) => DoDropJoin(w, t)
    case Shutdown => DoShutdown(w)
  }
}
