/** Who can be cancelled: only what was aborted, or found by a shutdown. */
module TaskCancels {
  import opened TaskModel
  import opened TaskInvariant
  import opened TaskSteps
  import opened TaskKeeps
  import opened TaskProgress
  import opened TaskRuns
  import opened TaskResults

  /** No task is aborted, no result is new, no poll starts or resolves. */
  ghost predicate Tame(w: World, w': World) {
    && w'.next == w.next && w'.stack == w.stack
    && (forall x :: x in w'.tasks ==> x in w.tasks && w'.tasks[x].cancelled == w.tasks[x].cancelled
                                      && w'.tasks[x].slot in {w.tasks[x].slot, Empty})
    && (forall e: Event :: e.PollStarted? || e.Resolved? ==> Count(w'.log, e) == Count(w.log, e))
  }

  lemma TameTransitive(a: World, b: World, c: World)
    requires Tame(a, b) && Tame(b, c)
    ensures Tame(a, c)
  {
  }

  lemma CalmIsTame(w: World, w': World)
    requires Calm(w, w')
    ensures Tame(w, w')
  {
  }

  lemma ReleaseIsTame(w: World, s: World, t: Id)
    requires Core(s) && t in s.flight && Tame(w, s)
    ensures t in s.tasks && Tame(w, Release(s, t))
  {
    ReleaseIsCalm(s, t);
    CalmIsTame(s, Release(s, t));
    TameTransitive(w, s, Release(s, t));
  }

  lemma CompletedIsTame(w: World, t: Id)
    requires t in w.tasks
    ensures Tame(w, Completed(w, t))
  {
    forall e: Event | !e.Discarded? ensures Count(Completed(w, t).log, e) == Count(w.log, e) {
      CountOne(w.log, Discarded(t), e);
    }
  }

  lemma ConcludeIsTame(w: World, t: Id)
    requires Core(w) && LogsOk(w) && OthersOk(w, t) && Resulted(w, t) && t in w.flight
    ensures Tame(w, Conclude(w, t))
  {
    var c := Completed(w, t);
    CompletedIsHalting(w, t);
    CompletedIsTame(w, t);
    var s := if w.tasks[t].join then WakeJoin(c, t) else c;
    if w.tasks[t].join {
      WakeJoinIsCalm(c, t);
      CalmKeepsHalting(c, s, t);
      CalmIsTame(c, s);
      TameTransitive(w, c, s);
    }
    assert multiset(s.list)[t] > 0;
    UnlistedIsSteady(s, t);
    TameTransitive(w, s, Unlisted(s, t));
    ReleaseIsTame(w, Unlisted(s, t), t);
    CompleteKeeps(w, t);
    ReleaseIsTame(w, Complete(w, t), t);
  }

  /** Never aborted, and its future still there unless it was polled. */
  predicate Plain(w: World, x: Id) {
    && x < w.next
    && (x in w.tasks ==> !w.tasks[x].cancelled && w.tasks[x].slot != Result(Cancelled))
    && (Polls(w, x) > 0 || (Count(w.log, Resolved(x)) == 0 && x !in w.stack))
  }

  lemma TameKeepsPlain(w: World, w': World, x: Id)
    requires Plain(w, x) && Tame(w, w')
    ensures Plain(w', x)
  {
  }

  lemma CancellingIsPlain(w: World, t: Id, x: Id)
    requires t in w.tasks && w.tasks[t].cancelled && Plain(w, x)
    ensures Plain(Cancelling(w, t), x)
  {
    CountOne(w.log, Resolved(t), PollStarted(x));
    CountOne(w.log, Resolved(t), Resolved(x));
  }

  lemma BeginKeepsPlain(w: World, t: Id, x: Id)
    requires Inv(w) && t in w.tasks && t in w.held && Plain(w, x)
    ensures Plain(DoBegin(w, t), x)
  {
    if w.tasks[t].complete {
      PassedIsSteady(w, t);
      ReleaseIsTame(w, Passed(w, t), t);
      TameKeepsPlain(w, DoBegin(w, t), x);
    } else if w.tasks[t].cancelled {
      CancellingKeeps(w, t);
      CancellingIsPlain(w, t, x);
      ConcludeIsTame(Cancelling(w, t), t);
      TameKeepsPlain(Cancelling(w, t), DoBegin(w, t), x);
    } else {
      CountOne(w.log, PollStarted(t), PollStarted(x));
      CountOne(w.log, PollStarted(t), Resolved(x));
    }
  }

  lemma SettledIsPlain(w: World, o: Output, x: Id)
    requires w.stack != [] && Top(w) in w.tasks && Plain(w, x)
    requires o == Cancelled ==> w.tasks[Top(w)].cancelled
    ensures Plain(Settled(w, o), x)
  {
    CountOne(w.log, Resolved(Top(w)), PollStarted(x));
    CountOne(w.log, Resolved(Top(w)), Resolved(x));
    LastOfStack(w);
    assert multiset(Settled(w, o).stack)[x] <= multiset(w.stack)[x];
  }

  lemma FinishKeepsPlain(w: World, o: Output, x: Id)
    requires Inv(w) && w.stack != [] && Top(w) in w.tasks && Plain(w, x)
    requires o == Cancelled ==> w.tasks[Top(w)].cancelled
    ensures Plain(Finish(Resolving(w, o), Top(w)), x)
  {
    RunningIsListed(w);
    FinishIsConclude(w, o);
    SettledKeeps(w, o);
    SettledIsPlain(w, o, x);
    ConcludeIsTame(Settled(w, o), Top(w));
    TameKeepsPlain(Settled(w, o), Conclude(Settled(w, o), Top(w)), x);
  }

  lemma EndKeepsPlain(w: World, outcome: Outcome, x: Id)
    requires Inv(w) && w.stack != [] && Top(w) in w.tasks && Plain(w, x)
    ensures Plain(DoEnd(w, outcome), x)
  {
    if outcome == Pending && !w.tasks[Top(w)].cancelled {
      PendingPollWaits(w);
    } else {
      FinishKeepsPlain(w, OutputOf(outcome), x);
    }
  }

  lemma WakerIsTame(w: World, t: Id)
    requires Inv(w) && t in w.wakers && t in w.tasks
    ensures Tame(w, DoWakeVal(w, t)) && Tame(w, DoDropWaker(w, t))
  {
    WakerInFlight(w, t);
    NotifyIsSteady(Lifted(w, t), t);
    ReleaseIsTame(w, Notify(Lifted(w, t), t), t);
    ReleaseIsTame(w, Lifted(w, t), t);
  }

  lemma ClaimIsTame(w: World, t: Id, k: Waker)
    requires t in w.tasks && w.tasks[t].complete
    ensures Tame(w, DoPollJoin(w, t, k))
  {
    forall e: Event | !e.Delivered? ensures Count(DoPollJoin(w, t, k).log, e) == Count(w.log, e) {
      CountOne(w.log, Delivered(t), e);
    }
  }

  lemma StoredIsTame(w: World, t: Id, k: Waker)
    requires t in w.tasks
    ensures Tame(w, w) && Tame(w, Stored(w, t, k))
  {
  }

  lemma PollJoinIsTame(w: World, t: Id, k: Waker)
    requires Inv(w) && Enabled(w, PollJoin(t, k))
    ensures Tame(w, DoPollJoin(w, t, k))
  {
    if w.tasks[t].complete {
      ClaimIsTame(w, t, k);
    } else {
      StoredIsTame(w, t, k);
      var s, u := PollJoinReplaces(w, t, k);
      if u.Some? {
        ReleaseIsTame(w, s, u.value);
      }
    }
  }

  lemma SpawnKeepsPlain(w: World, x: Id)
    requires Core(w) && Plain(w, x)
    ensures Plain(DoSpawn(w), x)
  {
    CountOne(w.log, Resolved(w.next), PollStarted(x));
    CountOne(w.log, Resolved(w.next), Resolved(x));
  }

  lemma DropJoinIsTame(w: World, t: Id)
    requires Inv(w) && t in w.tasks && w.tasks[t].join
    ensures Tame(w, DoDropJoin(w, t))
  {
    LettingIsSteady(w, t);
    ReleaseIsTame(w, Letting(w, t), t);
  }

  /** Steps that only move handles. */
  lemma HandlesAreTame(w: World, op: Op)
    requires Inv(w) && Enabled(w, op)
    requires op.WakeVal? || op.DropWaker? || op.PollJoin? || op.DropJoin?
    ensures Tame(w, Step(w, op))
  {
    match op
    case WakeVal(t) => WakerIsTame(w, t);
    case DropWaker(t) => WakerIsTame(w, t);
    case PollJoin(t, k) => PollJoinIsTame(w, t, k);
    case DropJoin(t) => DropJoinIsTame(w, t);
  }

  lemma PlainStep(w: World, op: Op, x: Id)
    requires Enabled(w, op) && Plain(w, x) && op != Abort(x)
    requires op.Next? || op.WakeRef? || op.CloneWaker? || op.Abort?
    ensures Plain(Step(w, op), x)
  {
  }

  /** Neither an abort of the task nor a shutdown. */
  predicate Spares(op: Op, x: Id) {
    op != Abort(x) && op != Shutdown
  }

  lemma StepKeepsPlain(w: World, op: Op, x: Id)
    requires Inv(w) && Enabled(w, op) && Plain(w, x) && Spares(op, x)
    ensures Plain(Step(w, op), x)
  {
    if op.WakeVal? || op.DropWaker? || op.PollJoin? || op.DropJoin? {
      HandlesAreTame(w, op);
      TameKeepsPlain(w, Step(w, op), x);
    } else {
      match op
      case Spawn => SpawnKeepsPlain(w, x);
      case Begin(t) => BeginKeepsPlain(w, t, x);
      case End(outcome) => EndKeepsPlain(w, outcome, x);
      case _ => PlainStep(w, op, x);
    }
  }

  lemma {:induction false} RunKeepsPlain(w: World, ops: seq<Op>, x: Id)
    requires Inv(w) && Allowed(w, ops) && Plain(w, x) && forall op :: op in ops ==> Spares(op, x)
    ensures Plain(Run(w, ops), x)
    decreases |ops|
  {
    if ops != [] {
      StepKeeps(w, ops[0]);
      StepKeepsPlain(w, ops[0], x);
      RunKeepsPlain(Step(w, ops[0]), ops[1..], x);
    }
  }

  /** Only an abort or a shutdown cancels: a task spawned in an open queue is otherwise polled once
      nothing is left to run, its future goes only after a poll, and its result is never a
      cancellation. */
  lemma OnlyAbortsCancel(w: World, ops: seq<Op>)
    requires Inv(w) && !w.closed && Allowed(DoSpawn(w), ops) && forall op :: op in ops ==> Spares(op, w.next)
    ensures var w' := Run(DoSpawn(w), ops); var t := w.next;
            && (t in w'.tasks ==> w'.tasks[t].slot != Result(Cancelled))
            && (Polls(w', t) > 0 || HasFuture(w', t))
            && (Idle(w') ==> Polls(w', t) > 0)
  {
    var t, s := w.next, DoSpawn(w);
    StepKeeps(w, Spawn);
    assert LogOk(s, t);
    ListedIsThere(w);
    assert t in s.tasks && TaskOk(s, t);
    RunKeepsPlain(s, ops, t);
    RunKeeps(s, ops);
    assert LogOk(Run(s, ops), t);
    if Idle(Run(s, ops)) {
      SpawnedIsPolled(w, ops);
    }
  }
}
