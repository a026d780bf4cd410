/** Where handles go: which steps make and use up those held outside, and that a cell nobody
    refers to any more is freed. */
module TaskHandles {
  import opened Wrappers
  import opened TaskModel
  import opened TaskInvariant
  import opened TaskSteps
  import opened TaskKeeps
  import opened TaskProgress
  import opened TaskRuns
  import opened TaskResults

  /** The handles held outside are the same, and no join handle is new. */
  ghost predicate Outside(w: World, w': World) {
    && w'.wakers == w.wakers && w'.held == w.held
    && (forall x :: Joined(w', x) ==> Joined(w, x))
  }

  lemma CalmIsOutside(w: World, s: World, w': World)
    requires Outside(w, s) && Calm(s, w')
    ensures Outside(w, w')
  {
  }

  lemma ReleaseIsOutside(w: World, s: World, t: Id)
    requires Core(s) && t in s.flight && Outside(w, s)
    ensures t in s.tasks && Outside(w, Release(s, t))
  {
    ReleaseIsCalm(s, t);
    CalmIsOutside(w, s, Release(s, t));
  }

  lemma UnbindIsOutside(w: World, s: World, t: Id)
    requires Halting(s, t) && Outside(w, s)
    ensures Outside(w, Unbind(s, t))
  {
    assert multiset(s.list)[t] > 0;
    UnlistedIsSteady(s, t);
    ReleaseIsOutside(w, Unlisted(s, t), t);
  }

  lemma CompletedIsOutside(w: World, t: Id)
    requires t in w.tasks
    ensures Outside(w, Completed(w, t))
  {
  }

  lemma CompleteIsOutside(w: World, t: Id)
    requires Core(w) && LogsOk(w) && OthersOk(w, t) && Resulted(w, t)
    ensures Outside(w, Complete(w, t))
  {
    var c := Completed(w, t);
    CompletedIsHalting(w, t);
    CompletedIsOutside(w, t);
    if w.tasks[t].join {
      WakeJoinIsCalm(c, t);
      CalmKeepsHalting(c, WakeJoin(c, t), t);
      CalmIsOutside(w, c, WakeJoin(c, t));
      UnbindIsOutside(w, WakeJoin(c, t), t);
    } else {
      UnbindIsOutside(w, c, t);
    }
  }

  lemma ConcludeIsOutside(w: World, s: World, t: Id)
    requires Core(s) && LogsOk(s) && OthersOk(s, t) && Resulted(s, t) && t in s.flight && Outside(w, s)
    ensures Outside(w, Conclude(s, t))
  {
    CompleteKeeps(s, t);
    CompleteIsOutside(s, t);
    ReleaseIsOutside(w, Complete(s, t), t);
  }

  lemma FinishIsOutside(w: World, o: Output)
    requires Inv(w) && w.stack != [] && Top(w) in w.tasks
    ensures Outside(w, Finish(Resolving(w, o), Top(w)))
  {
    RunningIsListed(w);
    FinishIsConclude(w, o);
    SettledKeeps(w, o);
    ConcludeIsOutside(w, Settled(w, o), Top(w));
  }

  lemma EndIsOutside(w: World, outcome: Outcome)
    requires Inv(w) && w.stack != [] && Top(w) in w.tasks
    ensures Outside(w, DoEnd(w, outcome))
  {
    if outcome == Pending && !w.tasks[Top(w)].cancelled {
      PendingPollWaits(w);
    } else {
      FinishIsOutside(w, OutputOf(outcome));
    }
  }

  /** The runnable that is run was popped before, and is held no more. */
  lemma BeginIsOutside(w: World, t: Id)
    requires Inv(w) && t in w.tasks && t in w.held
    ensures Outside(w.(held := w.held - multiset{t}), DoBegin(w, t))
  {
    var s := w.(held := w.held - multiset{t});
    if w.tasks[t].complete {
      PassedIsSteady(w, t);
      ReleaseIsOutside(s, Passed(w, t), t);
    } else if w.tasks[t].cancelled {
      CancellingKeeps(w, t);
      ConcludeIsOutside(s, Cancelling(w, t), t);
    }
  }

  lemma PollJoinIsOutside(w: World, t: Id, k: Waker)
    requires Inv(w) && Enabled(w, PollJoin(t, k))
    ensures Outside(w, DoPollJoin(w, t, k))
  {
    if !w.tasks[t].complete {
      StoredIsOutside(w, t, k);
      var s, u := PollJoinReplaces(w, t, k);
      if u.Some? {
        ReleaseIsOutside(w, s, u.value);
      }
    }
  }

  lemma StoredIsOutside(w: World, t: Id, k: Waker)
    requires t in w.tasks
    ensures Outside(w, w) && Outside(w, Stored(w, t, k))
  {
  }

  /** The waker that is used up is held no more. */
  lemma WakerIsOutside(w: World, t: Id)
    requires Inv(w) && t in w.wakers && t in w.tasks
    ensures Outside(w.(wakers := w.wakers - multiset{t}), DoWakeVal(w, t))
    ensures Outside(w.(wakers := w.wakers - multiset{t}), DoDropWaker(w, t))
  {
    var s := w.(wakers := w.wakers - multiset{t});
    WakerInFlight(w, t);
    NotifyIsSteady(Lifted(w, t), t);
    ReleaseIsOutside(s, Notify(Lifted(w, t), t), t);
    ReleaseIsOutside(s, Lifted(w, t), t);
  }

  lemma DropJoinIsOutside(w: World, t: Id)
    requires Inv(w) && t in w.tasks && w.tasks[t].join
    ensures Outside(w, DoDropJoin(w, t))
  {
    LettingIsSteady(w, t);
    ReleaseIsOutside(w, Letting(w, t), t);
  }

  lemma {:induction false} CancelAllIsOutside(w: World, s: World)
    requires Steady(s) && s.stack == [] && s.flight == multiset{} && Outside(w, s)
    ensures Outside(w, CancelAll(s))
    decreases |s.list|
  {
    if s.list != [] {
      CancelFirstKeeps(s);
      ListedIsThere(s);
      ShutFirstKeeps(s);
      ReleaseIsOutside(w, ShutFirst(s), s.list[0]);
      CancelAllIsOutside(w, CancelFirst(s));
    }
  }

  lemma {:induction false} DropQueueIsOutside(w: World, s: World)
    requires Steady(s) && s.list == [] && s.flight == multiset{} && Outside(w, s)
    ensures Outside(w, DropQueue(s))
    decreases |s.queue|
  {
    if s.queue != [] {
      UnqueuedKeeps(s);
      ReleaseIsSteady(Unqueued(s), s.queue[0]);
      ReleaseIsOutside(w, Unqueued(s), s.queue[0]);
      DropQueueIsOutside(w, DropFirst(s));
    }
  }

  lemma ShutdownIsOutside(w: World)
    requires Inv(w) && w.stack == []
    ensures Outside(w, DoShutdown(w))
  {
    var shut := w.(closed := true);
    ClosedIsSteady(w);
    CancelAllKeeps(shut);
    CancelAllIsOutside(w, shut);
    DropQueueIsOutside(w, CancelAll(shut));
  }

  // ----- every step -----------------------------------------------------------------

  /** The wakers held outside after a step. */
  function WakersAfter(w: World, op: Op): multiset<Id> {
    match op
    case CloneWaker(t) => w.wakers + multiset{t}
    case WakeVal(t) => w.wakers - multiset{t}
    case DropWaker(t) => w.wakers - multiset{t}
    case _ => w.wakers
  }

  /** The popped runnables after a step. */
  function HeldAfter(w: World, op: Op): multiset<Id> {
    match op
    case Next => if w.queue == [] then w.held else w.held + multiset{w.queue[0]}
    case Begin(t) => w.held - multiset{t}
    case _ => w.held
  }

  lemma SpawnIsOutside(w: World, x: Id)
    ensures DoSpawn(w).wakers == w.wakers && DoSpawn(w).held == w.held
    ensures x < w.next && Joined(DoSpawn(w), x) ==> Joined(w, x)
  {
  }

  lemma PlainIsOutside(w: World, op: Op)
    requires Enabled(w, op) && (op.Next? || op.WakeRef? || op.CloneWaker? || op.Abort?)
    ensures Outside(w.(wakers := WakersAfter(w, op), held := HeldAfter(w, op)), Step(w, op))
  {
  }

  /** A step makes and uses up exactly the handles it is given, and makes no join handle but that
      of a task it spawns. */
  lemma StepMovesHandles(w: World, op: Op, x: Id)
    requires Inv(w) && Enabled(w, op)
    ensures Step(w, op).wakers == WakersAfter(w, op) && Step(w, op).held == HeldAfter(w, op)
    ensures x < w.next && Joined(Step(w, op), x) ==> Joined(w, x)
    ensures op == DropJoin(x) ==> x < w.next && !Joined(Step(w, op), x)
  {
    match op
    case Spawn => SpawnIsOutside(w, x);
    case Begin(t) => BeginIsOutside(w, t);
    case End(outcome) => EndIsOutside(w, outcome);
    case WakeVal(t) => WakerIsOutside(w, t);
    case DropWaker(t) => WakerIsOutside(w, t);
    case PollJoin(t, k) => PollJoinIsOutside(w, t, k);
    case DropJoin(t) =>
      DropJoinIsOutside(w, t);
      DropJoinLetsGo(w, t);
    case Shutdown => ShutdownIsOutside(w);
    case _ => PlainIsOutside(w, op);
  }

  // ----- whole runs -----------------------------------------------------------------

  function Made(ops: seq<Op>, t: Id): nat {
    multiset(ops)[CloneWaker(t)]
  }

  function UsedUp(ops: seq<Op>, t: Id): nat {
    multiset(ops)[WakeVal(t)] + multiset(ops)[DropWaker(t)]
  }

  lemma CountTail(ops: seq<Op>, op: Op)
    requires ops != []
    ensures multiset(ops)[op] == multiset(ops[1..])[op] + if ops[0] == op then 1 else 0
  {
    assert ops == [ops[0]] + ops[1..];
  }

  lemma {:induction false} RunMovesHandles(w: World, ops: seq<Op>, t: Id)
    requires Inv(w) && Allowed(w, ops)
    ensures Run(w, ops).wakers[t] + UsedUp(ops, t) == w.wakers[t] + Made(ops, t)
    ensures t < w.next && Joined(Run(w, ops), t) ==> Joined(w, t)
    ensures Joined(Run(w, ops), t) ==> DropJoin(t) !in ops
    decreases |ops|
  {
    if ops != [] {
      var w' := Step(w, ops[0]);
      StepKeeps(w, ops[0]);
      StepIsOnward(w, ops[0]);
      StepMovesHandles(w, ops[0], t);
      RunMovesHandles(w', ops[1..], t);
      CountTail(ops, CloneWaker(t));
      CountTail(ops, WakeVal(t));
      CountTail(ops, DropWaker(t));
      CountTail(ops, DropJoin(t));
    }
  }

  lemma UnheldIsGone(w: World, t: Id)
    requires Inv(w) && Idle(w) && Done(w, t) && !Joined(w, t) && w.wakers[t] == 0
    requires forall u :: u in w.tasks ==> w.tasks[u].waker != Some(TaskWaker(t))
    ensures t !in w.tasks
  {
    assert Holders(w.tasks, t) == {};
    assert w.stored[t] == |Holders(w.tasks, t)|;
    assert t in w.tasks ==> TaskOk(w, t);
    assert t in w.tasks <==> Handles(w, t) > 0;
  }

  /** No cell leaks: in every run, once nothing is left to run, a task that is done, whose join
      handle was dropped, every waker of which was used up and which no other task waits for, is
      freed. */
  lemma NoCellLeaks(ops: seq<Op>, t: Id)
    requires Allowed(EmptyWorld, ops) && Idle(Run(EmptyWorld, ops)) && Done(Run(EmptyWorld, ops), t)
    requires DropJoin(t) in ops && UsedUp(ops, t) == Made(ops, t)
    requires forall u :: u in Run(EmptyWorld, ops).tasks ==>
               Run(EmptyWorld, ops).tasks[u].waker != Some(TaskWaker(t))
    ensures Gone(Run(EmptyWorld, ops), t)
  {
    ReachableIsSound([], t);
    ReachableIsSound(ops, t);
    RunMovesHandles(EmptyWorld, ops, t);
    UnheldIsGone(Run(EmptyWorld, ops), t);
  }

  /** And none goes too early: while a waker is left, the cell it refers to is there. */
  lemma WakerKeepsCell(ops: seq<Op>, t: Id)
    requires Allowed(EmptyWorld, ops) && Made(ops, t) > UsedUp(ops, t)
    ensures t in Run(EmptyWorld, ops).tasks
  {
    ReachableIsSound([], t);
    ReachableIsSound(ops, t);
    RunMovesHandles(EmptyWorld, ops, t);
  }
}
