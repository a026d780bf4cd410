/** Counting handles: how the count in every cell follows the handles. */
module TaskCounts {
  import opened Bags
  import opened Wrappers
  import opened TaskModel
  import opened TaskInvariant
  import opened TaskSteps
  import opened TaskKeeps
  import opened TaskCells

  function AsTasks(cells: map<Id, Cell>): map<Id, Task> {
    map t | t in cells :: AsTask(cells[t])
  }

  ghost predicate Exact(cells: map<Id, Cell>, w: World) {
    forall x :: x in cells ==> cells[x].state.refcount == Handles(w, x)
  }

  /** The cells are those of the view, and the count in each is the number of its handles. */
  ghost predicate Counted(cells: map<Id, Cell>, w: World) {
    w.tasks == AsTasks(cells) && Exact(cells, w)
  }

  /** The parts of the state that are no cells. */
  predicate Matches(w: World, queue: seq<Id>, list: seq<Id>, closed: bool, next: Id) {
    w.queue == queue && w.list == list && w.closed == closed && w.next == next
  }

  lemma OneTask(cells: map<Id, Cell>, t: Id, c: Cell)
    ensures AsTasks(cells[t := c]) == AsTasks(cells)[t := AsTask(c)]
  {
  }

  lemma SameTasks(cells: map<Id, Cell>, t: Id, n: nat)
    requires t in cells
    ensures AsTasks(cells[t := Recounted(cells[t], n)]) == AsTasks(cells)
  {
    OneTask(cells, t, Recounted(cells[t], n));
  }

  lemma FewerTasks(cells: map<Id, Cell>, t: Id)
    ensures AsTasks(cells - {t}) == AsTasks(cells) - {t}
  {
  }

  /** Another handle, in flight. */
  function Cloned(w: World, t: Id): World {
    w.(flight := w.flight + multiset{t})
  }

  /** A handle in flight, not the last one, is dropped. */
  function Dropping(w: World, t: Id): World {
    w.(flight := w.flight - multiset{t})
  }

  /** A runnable in flight is queued. */
  function Pushed(w: World, t: Id): World {
    w.(queue := w.queue + [t], flight := w.flight - multiset{t})
  }

  lemma UpHandles(w: World, t: Id, x: Id)
    ensures Handles(Cloned(w, t), x) == Handles(w, x) + if x == t then 1 else 0
  {
  }

  lemma DownHandles(w: World, t: Id, x: Id)
    requires t in w.flight
    ensures Handles(Dropping(w, t), x) == Handles(w, x) - if x == t then 1 else 0
  {
  }

  lemma PushHandles(w: World, t: Id, x: Id)
    requires t in w.flight
    ensures Handles(Pushed(w, t), x) == Handles(w, x)
  {
  }

  lemma LastIsUnjoined(w: World, t: Id)
    requires t in w.tasks && t in w.flight
    ensures Handles(w, t) > 0 && (Handles(w, t) == 1 ==> !w.tasks[t].join)
  {
  }

  lemma FreedIsCore(w: World, t: Id)
    requires Core(w) && t in w.flight && Handles(w, t) == 1
    ensures t in w.tasks && Core(Freed(w, t))
  {
    LastHandle(w, t);
  }

  lemma ReleaseOfLast(w: World, t: Id, u: Id)
    requires t in w.tasks && Handles(w, t) == 1 && w.tasks[t].waker == Some(TaskWaker(u))
    ensures u in Freed(w, t).flight
    ensures u in Freed(w, t).tasks ==> Release(w, t) == Release(Freed(w, t), u)
  {
  }

  lemma FreedChain(w: World, t: Id, u: Id)
    requires Core(w) && t in w.flight && Handles(w, t) == 1
    requires t in w.tasks && w.tasks[t].waker == Some(TaskWaker(u))
    ensures Core(Freed(w, t)) && u in Freed(w, t).flight && u in Freed(w, t).tasks
    ensures Release(w, t) == Release(Freed(w, t), u)
  {
    FreedIsCore(w, t);
    ReleaseOfLast(w, t, u);
    InFlightIsThere(Freed(w, t), u);
  }

  lemma FreedAlone(w: World, t: Id)
    requires t in w.tasks && Handles(w, t) == 1
    requires Target(w.tasks[t].waker) == multiset{}
    ensures Release(w, t) == Freed(w, t)
  {
  }

  /** The count of one cell follows its handles. */
  lemma RecountCounts(cells: map<Id, Cell>, w: World, w': World, t: Id, n: nat)
    requires Counted(cells, w) && t in cells && w'.tasks == w.tasks
    requires forall x :: Handles(w', x) == if x == t then n else Handles(w, x)
    ensures Counted(cells[t := Recounted(cells[t], n)], w')
  {
    SameTasks(cells, t, n);
  }

  lemma UpCounts(cells: map<Id, Cell>, w: World, t: Id)
    requires Counted(cells, w) && t in cells
    ensures Counted(cells[t := Recounted(cells[t], cells[t].state.refcount + 1)],
                    Cloned(w, t))
  {
    forall x { UpHandles(w, t, x); }
    RecountCounts(cells, w, Cloned(w, t), t, cells[t].state.refcount + 1);
  }

  lemma PushCounts(cells: map<Id, Cell>, w: World, t: Id)
    requires Counted(cells, w) && t in w.flight
    ensures Counted(cells, Pushed(w, t))
  {
    forall x { PushHandles(w, t, x); }
  }

  lemma CountIs(cells: map<Id, Cell>, w: World, t: Id)
    requires Counted(cells, w) && t in cells
    ensures t in w.tasks && cells[t].state.refcount == Handles(w, t)
  {
  }

  lemma DownCounts(cells: map<Id, Cell>, w: World, t: Id, n: nat)
    requires Counted(cells, w) && t in cells && t in w.flight && cells[t].state.refcount == n + 1
    ensures Counted(cells[t := Recounted(cells[t], n)], Dropping(w, t))
  {
    CountIs(cells, w, t);
    forall x { DownHandles(w, t, x); }
    RecountCounts(cells, w, Dropping(w, t), t, n);
  }

  lemma FreeCounts(cells: map<Id, Cell>, w: World, t: Id)
    requires Counted(cells, w) && t in cells && t in w.flight && StoredExact(w)
    ensures t in w.tasks && Counted(cells - {t}, Freed(w, t))
    ensures Matches(Freed(w, t), w.queue, w.list, w.closed, w.next)
  {
    StoredWakerIsCounted(w, t);
    FewerTasks(cells, t);
    forall x | x != t { FreedHandles(w, t, x); }
  }

  // ----- operations taken apart -----------------------------------------------------

  /** A cell is changed, its count and join handle not. */
  function Update(w: World, t: Id, c: Task, es: seq<Event>): World {
    w.(tasks := w.tasks[t := c], log := w.log + es)
  }

  lemma UpdateHandles(w: World, t: Id, c: Task, es: seq<Event>, x: Id)
    requires t in w.tasks && c.join == w.tasks[t].join
    ensures Handles(Update(w, t, c, es), x) == Handles(w, x)
  {
  }

  /** A cell is changed, but not its count, and with it the handles of the view. */
  lemma CellCounts(cells: map<Id, Cell>, w: World, w': World, t: Id, c: Cell)
    requires Counted(cells, w) && t in cells && c.state.refcount == cells[t].state.refcount
    requires w'.tasks == w.tasks[t := AsTask(c)] && (forall x :: Handles(w', x) == Handles(w, x))
    ensures Counted(cells[t := c], w')
  {
    OneTask(cells, t, c);
  }

  lemma UpdateCounts(cells: map<Id, Cell>, w: World, t: Id, c: Cell, es: seq<Event>)
    requires Counted(cells, w) && t in cells
    requires c.state.join == cells[t].state.join && c.state.refcount == cells[t].state.refcount
    ensures Counted(cells[t := c], Update(w, t, AsTask(c), es))
  {
    forall x { UpdateHandles(w, t, AsTask(c), es, x); }
    CellCounts(cells, w, Update(w, t, AsTask(c), es), t, c);
  }

  lemma UpdateTwice(w: World, t: Id, c: Task, d: Task, es: seq<Event>)
    ensures Update(Update(w, t, c, []), t, d, es) == Update(w, t, d, es)
  {
    assert w.tasks[t := c][t := d] == w.tasks[t := d];
  }

  lemma UpdateNothing(w: World, t: Id, c: Task)
    requires t in w.tasks && w.tasks[t] == c
    ensures Update(w, t, c, []) == w
  {
    assert w.tasks[t := c] == w.tasks;
  }

  /** The task marked as notified. */
  function Marked(w: World, t: Id): World
    requires t in w.tasks
  {
    var c := w.tasks[t];
    Update(w, t, if c.complete then c else c.(notified := true), [])
  }

  lemma NotifyIsMarking(w: World, t: Id)
    requires t in w.tasks
    requires w.tasks[t].complete || w.tasks[t].notified || w.tasks[t].running
    ensures Notify(w, t) == Marked(w, t)
  {
    if w.tasks[t].complete || w.tasks[t].notified {
      UpdateNothing(w, t, w.tasks[t]);
    }
  }

  lemma NotifyIsPushing(w: World, t: Id)
    requires t in w.tasks && !w.tasks[t].complete && !w.tasks[t].notified && !w.tasks[t].running
    ensures Notify(w, t) == Pushed(Cloned(Marked(w, t), t), t)
  {
    assert w.flight + multiset{t} - multiset{t} == w.flight;
  }

  lemma TakeWakerMatches(w: World, t: Id)
    requires t in w.tasks && w.tasks[t].waker.Some?
    ensures Matches(TakeWaker(w, t), w.queue, w.list, w.closed, w.next)
    ensures TakeWaker(w, t).tasks == w.tasks[t := w.tasks[t].(waker := None)]
  {
  }

  lemma TakeWakerKeepsHandles(w: World, t: Id)
    requires t in w.tasks && w.tasks[t].waker.Some? && StoredExact(w)
    ensures forall x :: Handles(TakeWaker(w, t), x) == Handles(w, x)
  {
    StoredWakerIsCounted(w, t);
    forall x { TakeWakerHandles(w, t, x); }
  }

  lemma TakeWakerCounts(cells: map<Id, Cell>, w: World, t: Id)
    requires Counted(cells, w) && t in cells && cells[t].waker.Some? && StoredExact(w)
    ensures t in w.tasks && Counted(cells[t := cells[t].(waker := None)], TakeWaker(w, t))
  {
    TakeWakerKeepsHandles(w, t);
    TakeWakerMatches(w, t);
    CellCounts(cells, w, TakeWaker(w, t), t, cells[t].(waker := None));
  }

  lemma TakeWakerHandles(w: World, t: Id, x: Id)
    requires t in w.tasks && w.tasks[t].waker.Some? && Target(w.tasks[t].waker) <= w.stored
    ensures Handles(TakeWaker(w, t), x) == Handles(w, x)
  {
  }

  // ----- storing the waker of the join handle ---------------------------------------

  function Held(k: Waker, w: World): World {
    if k.TaskWaker? then Cloned(w, k.task) else w
  }

  lemma StoredMatches(w: World, t: Id, k: Waker)
    requires t in w.tasks
    ensures Matches(Stored(w, t, k), w.queue, w.list, w.closed, w.next)
    ensures Stored(w, t, k).tasks == w.tasks[t := w.tasks[t].(waker := Some(k))]
  {
  }

  lemma Swapped(s: multiset<Id>, a: multiset<Id>, b: multiset<Id>, x: Id)
    requires b <= s
    ensures (s + a - b)[x] == s[x] + a[x] - b[x]
  {
  }

  lemma StoredKeepsHandles(w: World, t: Id, k: Waker, x: Id)
    requires t in w.tasks && Target(w.tasks[t].waker) <= w.stored
    ensures Handles(Stored(w, t, k), x) == Handles(w, x) + Target(Some(k))[x]
  {
    Swapped(w.stored, Target(Some(k)), Target(w.tasks[t].waker), x);
  }

  lemma HeldHandles(w: World, k: Waker, x: Id)
    ensures Handles(Held(k, w), x) == Handles(w, x) + Target(Some(k))[x]
  {
  }

  lemma StoredIsHeld(w: World, t: Id, k: Waker)
    requires t in w.tasks && StoredExact(w)
    ensures forall x :: Handles(Stored(w, t, k), x) == Handles(Held(k, w), x)
  {
    StoredWakerIsCounted(w, t);
    forall x ensures Handles(Stored(w, t, k), x) == Handles(Held(k, w), x) {
      StoredKeepsHandles(w, t, k, x);
      HeldHandles(w, k, x);
    }
  }

  lemma StoredCounts(cells: map<Id, Cell>, w: World, t: Id, k: Waker)
    requires Counted(cells, Held(k, w)) && t in cells && StoredExact(w)
    ensures t in w.tasks && Counted(cells[t := cells[t].(waker := Some(k))], Stored(w, t, k))
  {
    StoredIsHeld(w, t, k);
    StoredMatches(w, t, k);
    CellCounts(cells, Held(k, w), Stored(w, t, k), t, cells[t].(waker := Some(k)));
  }

  // ----- completing -----------------------------------------------------------------

  lemma CompletedInSteps(w: World, t: Id)
    requires t in w.tasks
    ensures var c := w.tasks[t].(complete := true, running := false);
            Completed(w, t) == if c.join then Update(w, t, c, [])
                               else Update(Update(w, t, c, []), t, c.(slot := Empty), [Discarded(t)])
  {
    var c := w.tasks[t].(complete := true, running := false);
    UpdateTwice(w, t, c, c.(slot := Empty), [Discarded(t)]);
  }

  /** The handles of the view are counted, whatever their kind. */
  lemma MovedCounts(cells: map<Id, Cell>, w: World, w': World)
    requires Counted(cells, w) && w'.tasks == w.tasks
    requires forall x :: Handles(w', x) == Handles(w, x)
    ensures Counted(cells, w')
  {
  }

  lemma UnlistedHandles(w: World, t: Id, x: Id)
    requires t in w.list
    ensures Handles(Unlisted(w, t), x) == Handles(w, x)
  {
    WithoutTakesOne(w.list, t);
  }

  lemma UnlistedCounts(cells: map<Id, Cell>, w: World, t: Id)
    requires Counted(cells, w) && t in w.list
    ensures Counted(cells, Unlisted(w, t)) && |Without(w.list, t)| == |w.list| - 1
  {
    forall x { UnlistedHandles(w, t, x); }
    MovedCounts(cells, w, Unlisted(w, t));
    WithoutTakesOne(w.list, t);
  }

  // ----- running --------------------------------------------------------------------

  lemma PassedCounts(cells: map<Id, Cell>, w: World, t: Id)
    requires Counted(cells, w) && t in w.held
    ensures Counted(cells, Passed(w, t))
  {
    forall x ensures Handles(Passed(w, t), x) == Handles(w, x) {
    }
    MovedCounts(cells, w, Passed(w, t));
  }

  lemma CancellingInSteps(w: World, t: Id)
    requires t in w.tasks
    ensures var c := w.tasks[t].(running := true, notified := false);
            Cancelling(w, t) == Update(Update(Passed(w, t), t, c, []), t, c.(slot := Result(Cancelled)), [Resolved(t)])
  {
    var c := w.tasks[t].(running := true, notified := false);
    UpdateTwice(Passed(w, t), t, c, c.(slot := Result(Cancelled)), [Resolved(t)]);
  }

  /** A runnable and a context waker in flight go to the poll that starts. */
  function Entered(w: World, t: Id): World {
    w.(stack := w.stack + [t], flight := w.flight - multiset{t, t}, log := w.log + [PollStarted(t)])
  }

  lemma EnteredCounts(cells: map<Id, Cell>, w: World, t: Id)
    requires Counted(cells, w) && w.flight[t] >= 2
    ensures Counted(cells, Entered(w, t))
  {
    forall x ensures Handles(Entered(w, t), x) == Handles(w, x) {
    }
    MovedCounts(cells, w, Entered(w, t));
  }

  lemma PollingInSteps(w: World, t: Id)
    requires t in w.tasks
    ensures var c := w.tasks[t].(running := true, notified := false);
            Polling(w, t) == Entered(Cloned(Update(Passed(w, t), t, c, []), t), t)
  {
    assert w.flight + multiset{t} + multiset{t} - multiset{t, t} == w.flight;
  }

  /** The runnable and the context waker of the innermost poll are in flight again. */
  function Returned(w: World): World
    requires w.stack != []
  {
    w.(stack := w.stack[..|w.stack| - 1], flight := w.flight + multiset{Top(w), Top(w)})
  }

  lemma ReturnedHandles(w: World, x: Id)
    requires w.stack != []
    ensures Handles(Returned(w), x) == Handles(w, x)
  {
    LastOfStack(w);
  }

  lemma ReturnedCounts(cells: map<Id, Cell>, w: World)
    requires Counted(cells, w) && w.stack != []
    ensures Counted(cells, Returned(w))
  {
    forall x { ReturnedHandles(w, x); }
    MovedCounts(cells, w, Returned(w));
  }

  lemma ResolvingInSteps(w: World, o: Output)
    requires w.stack != [] && Top(w) in w.tasks
    ensures Resolving(w, o)
         == Update(Returned(w), Top(w), w.tasks[Top(w)].(slot := Result(o)), [Resolved(Top(w))])
  {
  }

  lemma SuspendedInSteps(w: World)
    requires w.stack != [] && Top(w) in w.tasks
    ensures Suspended(w) == Update(Returned(w), Top(w), w.tasks[Top(w)].(running := false), [])
  {
  }

  lemma ResolvingHandles(w: World, o: Output, x: Id)
    requires w.stack != [] && Top(w) in w.tasks
    ensures Handles(Resolving(w, o), x) > 0 <==> Handles(Settled(w, o), x) > 0
  {
  }

  /** The poll done but its context waker not dropped yet, nothing dangles either. */
  lemma ReturnedIsCore(w: World, s: World, o: Output)
    requires Inv(w) && w.stack != [] && Top(w) in w.tasks && s == Resolving(w, o)
    ensures Core(s) && Top(w) in s.flight && Release(s, Top(w)) == Settled(w, o)
  {
    RunningIsListed(w);
    SettledKeeps(w, o);
    forall x { ResolvingHandles(w, o, x); }
    HandedOnIsCore(Settled(w, o), s);
    ListedSurvives(s, Top(w));
    assert w.flight + multiset{Top(w), Top(w)} - multiset{Top(w)} == w.flight + multiset{Top(w)};
  }

  // ----- the other handles ----------------------------------------------------------

  lemma LiftedCounts(cells: map<Id, Cell>, w: World, t: Id)
    requires Counted(cells, w) && t in w.wakers
    ensures Counted(cells, Lifted(w, t))
  {
    forall x ensures Handles(Lifted(w, t), x) == Handles(w, x) {
    }
    MovedCounts(cells, w, Lifted(w, t));
  }

  /** A waker in flight is given away. */
  function Given(w: World, t: Id): World {
    w.(wakers := w.wakers + multiset{t}, flight := w.flight - multiset{t})
  }

  lemma GivenCounts(cells: map<Id, Cell>, w: World, t: Id)
    requires Counted(cells, w) && t in w.flight
    ensures Counted(cells, Given(w, t))
  {
    forall x ensures Handles(Given(w, t), x) == Handles(w, x) {
    }
    MovedCounts(cells, w, Given(w, t));
  }

  lemma NextCounts(cells: map<Id, Cell>, w: World)
    requires Counted(cells, w)
    ensures Counted(cells, DoNext(w))
  {
    if w.queue != [] {
      HeadAndTail(w.queue);
      forall x ensures Handles(DoNext(w), x) == Handles(w, x) {
      }
      MovedCounts(cells, w, DoNext(w));
    }
  }

  lemma UnqueuedCounts(cells: map<Id, Cell>, w: World)
    requires Counted(cells, w) && w.queue != []
    ensures Counted(cells, Unqueued(w))
  {
    HeadAndTail(w.queue);
    forall x ensures Handles(Unqueued(w), x) == Handles(w, x) {
    }
    MovedCounts(cells, w, Unqueued(w));
  }

  /** The first of the task set is popped. */
  function Popped(w: World): World
    requires w.list != []
  {
    w.(list := w.list[1..], flight := w.flight + multiset{w.list[0]})
  }

  lemma PoppedCounts(cells: map<Id, Cell>, w: World)
    requires Counted(cells, w) && w.list != []
    ensures Counted(cells, Popped(w))
  {
    HeadAndTail(w.list);
    forall x ensures Handles(Popped(w), x) == Handles(w, x) {
    }
    MovedCounts(cells, w, Popped(w));
  }

  lemma ShutFirstInSteps(w: World)
    requires w.list != [] && w.list[0] in w.tasks
    ensures var c := w.tasks[w.list[0]].(cancelled := true, complete := true);
            ShutFirst(w) == if w.tasks[w.list[0]].complete then Update(Popped(w), w.list[0], c, [])
                            else Update(Update(Popped(w), w.list[0], c, []), w.list[0], c.(slot := Result(Cancelled)),
                                        [Resolved(w.list[0])])
  {
    var c := w.tasks[w.list[0]].(cancelled := true, complete := true);
    UpdateTwice(Popped(w), w.list[0], c, c.(slot := Result(Cancelled)), [Resolved(w.list[0])]);
  }

  lemma LettingHandles(w: World, t: Id, x: Id)
    requires t in w.tasks && w.tasks[t].join
    ensures Handles(Letting(w, t), x) == Handles(w, x)
  {
  }

  lemma LettingMatches(w: World, t: Id)
    requires t in w.tasks
    ensures Matches(Letting(w, t), w.queue, w.list, w.closed, w.next)
    ensures Letting(w, t).tasks == w.tasks[t := w.tasks[t].(join := false)]
  {
  }

  lemma LettingCounts(cells: map<Id, Cell>, w: World, t: Id)
    requires Counted(cells, w) && t in cells && cells[t].state.join
    ensures t in w.tasks && Counted(cells[t := cells[t].(state := cells[t].state.(join := false))], Letting(w, t))
  {
    forall x { LettingHandles(w, t, x); }
    LettingMatches(w, t);
    CellCounts(cells, w, Letting(w, t), t, cells[t].(state := cells[t].state.(join := false)));
  }

  lemma AbortIsMarking(w: World, t: Id)
    requires t in w.tasks
    ensures var c := w.tasks[t];
            var m := Update(w, t, if c.cancelled || c.complete then c else c.(cancelled := true, notified := true), []);
            DoAbort(w, t) == if c.cancelled || c.complete || c.running || c.notified then m
                             else Pushed(Cloned(m, t), t)
  {
    var c := w.tasks[t];
    if c.cancelled || c.complete {
      UpdateNothing(w, t, c);
    }
    assert w.flight + multiset{t} - multiset{t} == w.flight;
  }

  /** A new cell: its runnable is in flight, its join handle is the caller's. */
  function Allocated(w: World): World {
    w.(tasks := w.tasks[w.next := Task(true, false, false, true, false, Future, None)],
       next := w.next + 1, flight := w.flight + multiset{w.next})
  }

  lemma AllocatedHandles(w: World, x: Id)
    requires Core(w)
    ensures w.next !in w.tasks
    ensures Handles(Allocated(w), x) == if x == w.next then 2 else Handles(w, x)
  {
    NewTask(w, Task(true, false, false, true, false, Future, None), x);
  }

  lemma AllocatedCounts(cells: map<Id, Cell>, w: World)
    requires Counted(cells, w) && Core(w)
    ensures Counted(cells[w.next := Cell(Flags(true, false, false, true, false, 2), Future, None)], Allocated(w))
    ensures w.next !in cells
  {
    OneTask(cells, w.next, Cell(Flags(true, false, false, true, false, 2), Future, None));
    forall x { AllocatedHandles(w, x); }
  }

  lemma ClosedSpawnInSteps(w: World)
    requires w.closed
    ensures var t := w.next; var c := Task(true, false, true, true, true, Future, None);
            DoSpawn(w) == Dropping(Update(Update(Allocated(w), t, c, []), t, c.(slot := Result(Cancelled)),
                                          [Resolved(t)]), t)
  {
    var t := w.next;
    var c := Task(true, false, true, true, true, Future, None);
    UpdateTwice(Allocated(w), t, c, c.(slot := Result(Cancelled)), [Resolved(t)]);
    assert w.tasks[t := Task(true, false, false, true, false, Future, None)][t := c.(slot := Result(Cancelled))]
        == w.tasks[t := c.(slot := Result(Cancelled))];
    assert w.flight + multiset{t} - multiset{t} == w.flight;
  }

  /** A handle in flight goes to the task set. */
  function Listed(w: World, t: Id): World {
    w.(list := w.list + [t], flight := w.flight - multiset{t})
  }

  lemma ListedCounts(cells: map<Id, Cell>, w: World, t: Id)
    requires Counted(cells, w) && t in w.flight
    ensures Counted(cells, Listed(w, t))
  {
    forall x ensures Handles(Listed(w, t), x) == Handles(w, x) {
    }
    MovedCounts(cells, w, Listed(w, t));
  }

  lemma OpenSpawnInSteps(w: World)
    requires !w.closed
    ensures DoSpawn(w) == Pushed(Listed(Cloned(Allocated(w), w.next), w.next), w.next)
  {
    var t := w.next;
    assert w.flight + multiset{t} + multiset{t} - multiset{t} - multiset{t} == w.flight;
  }

  lemma WaitingInSteps(w: World, s: World)
    requires w.stack != [] && Top(w) in w.tasks && s == Dropping(Suspended(w), Top(w))
    ensures Waiting(w) == if w.tasks[Top(w)].notified then Pushed(Cloned(s, Top(w)), Top(w)) else s
  {
    var t := Top(w);
    assert w.flight + multiset{t, t} - multiset{t} == w.flight + multiset{t};
    assert w.flight + multiset{t} + multiset{t} - multiset{t} == w.flight + multiset{t};
  }

  lemma SuspendedHandles(w: World, x: Id)
    requires w.stack != [] && Top(w) in w.tasks
    ensures Handles(Suspended(w), x) > 0 <==> Handles(Waiting(w), x) > 0
  {
  }

  /** A poll suspended, its context waker not dropped yet. */
  lemma SuspendedIsCore(w: World)
    requires Inv(w) && w.stack != [] && Top(w) in w.tasks && !w.tasks[Top(w)].cancelled
    ensures Core(Suspended(w)) && Top(w) in Suspended(w).flight
    ensures Release(Suspended(w), Top(w)) == Dropping(Suspended(w), Top(w))
    ensures Dropping(Suspended(w), Top(w)).flight == multiset{Top(w)}
  {
    RunningIsListed(w);
    WaitingIsSteady(w);
    forall x { SuspendedHandles(w, x); }
    HandedOnIsCore(Waiting(w), Suspended(w));
    ListedSurvives(Suspended(w), Top(w));
  }

  lemma RunningIsCounted(w: World)
    requires w.stack != []
    ensures Handles(w, Top(w)) > 0
  {
    LastOfStack(w);
  }

  lemma CanWakeIsThere(w: World, t: Id)
    requires Live(w) && CanWake(w, t)
    ensures t in w.tasks && Handles(w, t) > 0
  {
    assert t in w.stack ==> multiset(w.stack)[t] > 0;
    assert t in w.tasks <==> Handles(w, t) > 0;
  }

  lemma GivenIsCloned(w: World, t: Id)
    ensures Given(Cloned(w, t), t) == w.(wakers := w.wakers + multiset{t})
  {
    assert w.flight + multiset{t} - multiset{t} == w.flight;
  }

  function Claimed(w: World, t: Id): World {
    w.(claimed := w.claimed + {t})
  }

  lemma ClaimedCounts(cells: map<Id, Cell>, w: World, t: Id)
    requires Counted(cells, w)
    ensures Counted(cells, Claimed(w, t))
  {
    forall x ensures Handles(Claimed(w, t), x) == Handles(w, x) {
    }
    MovedCounts(cells, w, Claimed(w, t));
  }

  lemma ClaimInSteps(w: World, t: Id)
    requires t in w.tasks && w.tasks[t].complete
    ensures forall k :: DoPollJoin(w, t, k) == Claimed(Update(w, t, w.tasks[t].(slot := Empty), [Delivered(t)]), t)
  {
  }

  /** A task shut down as it is spawned, its runnable not dropped yet. */
  lemma ShutSpawnIsCore(w: World, s: World)
    requires Inv(w) && w.closed && Dropping(s, w.next) == DoSpawn(w) && w.next in s.flight
    ensures Core(s) && w.next in s.tasks && Release(s, w.next) == DoSpawn(w)
  {
    SpawnIsCore(w);
    forall x ensures Handles(s, x) > 0 <==> Handles(DoSpawn(w), x) > 0 {
      DownHandles(s, w.next, x);
    }
    HandedOnIsCore(DoSpawn(w), s);
    DownHandles(s, w.next, w.next);
  }

  lemma PoppedIsCounted(w: World)
    requires w.list != []
    ensures Handles(Popped(w), w.list[0]) > 0
  {
  }

  lemma ClosedCounts(cells: map<Id, Cell>, w: World)
    requires Counted(cells, w)
    ensures Counted(cells, w.(closed := true))
  {
    forall x ensures Handles(w.(closed := true), x) == Handles(w, x) {
    }
    MovedCounts(cells, w, w.(closed := true));
  }

  lemma DropFirstKeeps(w: World)
    requires Steady(w) && w.list == [] && w.queue != [] && w.flight == multiset{}
    ensures Steady(Unqueued(w)) && w.queue[0] in Unqueued(w).tasks
    ensures var w' := Release(Unqueued(w), w.queue[0]);
            && Steady(w') && w'.list == [] && w'.flight == multiset{} && |w'.queue| < |w.queue|
            && DropQueue(w) == DropQueue(w')
  {
    UnqueuedKeeps(w);
    ReleaseIsSteady(Unqueued(w), w.queue[0]);
  }
}
