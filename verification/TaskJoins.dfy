/** The waker left by a pending join handle: it stays with the task until the task
    completes, and is then woken, which makes its own task owed a poll. */
module TaskJoins {
  import opened Wrappers
  import opened TaskModel
  import opened TaskInvariant
  import opened TaskSteps
  import opened TaskKeeps
  import opened TaskProgress

  /** The join handle of an unfinished task waits with a waker. */
  predicate Attended(w: World, x: Id, k: Waker) {
    HasFuture(w, x) && w.tasks[x].join && w.tasks[x].waker == Some(k)
  }

  function Woken(w: World, x: Id, k: Waker): nat {
    Count(w.log, JoinWoken(x, k))
  }

  /** The task of the waker is owed a poll, unless it needs none. */
  predicate Heard(w: World, k: Waker) {
    k.TaskWaker? ==> Owed(w, k.task) || Done(w, k.task)
  }

  /** The waker was woken on the way from one state to the other, and heard. */
  predicate Called(w: World, w': World, x: Id, k: Waker) {
    Woken(w', x, k) > Woken(w, x, k) && Heard(w', k)
  }

  // ----- what leaves the waker in place ---------------------------------------------

  lemma ReleaseAttends(w: World, t: Id, x: Id, k: Waker)
    requires Core(w) && t in w.flight && Attended(w, x, k)
    ensures t in w.tasks && Attended(Release(w, t), x, k)
  {
    ReleaseKeeps(w, t);
    var w' := Release(w, t);
    assert x in w.list;
    assert x in w'.tasks <==> Handles(w', x) > 0;
  }

  lemma WakeByAttends(w: World, j: Waker, x: Id, k: Waker)
    requires Core(w) && Target(Some(j)) <= w.flight && Attended(w, x, k)
    ensures Attended(WakeBy(w, j), x, k)
  {
    if j.TaskWaker? {
      InFlightIsThere(w, j.task);
      NotifyIsCalm(w, j.task);
      ReleaseAttends(Notify(w, j.task), j.task, x, k);
    }
  }

  lemma CompletedAttends(w: World, t: Id, x: Id, k: Waker)
    requires t in w.tasks && x != t && Attended(w, x, k)
    ensures Attended(Completed(w, t), x, k)
  {
  }

  lemma WakeJoinAttends(w: World, t: Id, x: Id, k: Waker)
    requires Core(w) && t in w.tasks && x != t && Attended(w, x, k)
    ensures Attended(WakeJoin(w, t), x, k)
  {
    if w.tasks[t].waker.Some? {
      TakeWakerIsCalm(w, t);
      assert Attended(TakeWaker(w, t), x, k);
      WakeByAttends(TakeWaker(w, t), w.tasks[t].waker.value, x, k);
    }
  }

  lemma CompleteAttends(w: World, t: Id, x: Id, k: Waker)
    requires Core(w) && LogsOk(w) && OthersOk(w, t) && Resulted(w, t)
    requires x != t && Attended(w, x, k)
    ensures Attended(Complete(w, t), x, k)
  {
    var c := Completed(w, t);
    CompletedIsHalting(w, t);
    CompletedAttends(w, t, x, k);
    if w.tasks[t].join {
      WakeJoinIsCalm(c, t);
      CalmKeepsHalting(c, WakeJoin(c, t), t);
      WakeJoinAttends(c, t, x, k);
      UnbindAttends(WakeJoin(c, t), t, x, k);
    } else {
      UnbindAttends(c, t, x, k);
    }
  }

  lemma UnbindAttends(w: World, t: Id, x: Id, k: Waker)
    requires Halting(w, t) && Attended(w, x, k)
    ensures Attended(Unbind(w, t), x, k)
  {
    UnlistedIsSteady(w, t);
    assert multiset(w.list)[t] > 0;
    ReleaseAttends(Unlisted(w, t), t, x, k);
  }

  lemma StoredIsAttended(w: World, t: Id, k: Waker)
    requires HasFuture(w, t) && w.tasks[t].join
    ensures Attended(Stored(w, t, k), t, k)
  {
  }

  lemma ReplacedAttends(s: World, u: Id, t: Id, k: Waker, w': World)
    requires Steady(s) && u in s.flight && Attended(s, t, k) && w' == Drop(s, u)
    ensures Attended(w', t, k)
  {
    ReleaseAttends(s, u, t, k);
  }

  /** A join handle that is polled before its task is complete leaves the waker it was given,
      in place of any other. */
  lemma PendingJoinAttends(w: World, t: Id, k: Waker)
    requires Inv(w) && Enabled(w, PollJoin(t, k)) && !w.tasks[t].complete
    ensures Attended(DoPollJoin(w, t, k), t, k)
  {
    assert TaskOk(w, t);
    var c := w.tasks[t];
    if c.waker != Some(k) {
      StoredIsSteady(w, t, k);
      StoredIsAttended(w, t, k);
      if c.waker.Some? && c.waker.value.TaskWaker? {
        ReplacedAttends(Stored(w, t, k), c.waker.value.task, t, k, DoPollJoin(w, t, k));
      }
    }
  }

  // ----- what wakes it --------------------------------------------------------------

  lemma CalmIsHeard(w: World, w': World, k: Waker)
    requires Core(w) && Calm(w, w') && Heard(w, k)
    ensures Heard(w', k)
  {
    if k.TaskWaker? {
      CalmIsOnward(w, w');
      assert Moves(w, w', k.task);
      assert Polls(w', k.task) == Polls(w, k.task);
    }
  }

  lemma WakeByIsHeard(w: World, k: Waker)
    requires Core(w) && Target(Some(k)) <= w.flight
    requires forall u :: u in w.tasks ==> Scheduled(w, u)
    ensures Heard(WakeBy(w, k), k)
  {
    if k.TaskWaker? {
      var t := k.task;
      InFlightIsThere(w, t);
      NotifyIsCalm(w, t);
      assert Scheduled(w, t);
      ReleaseIsCalm(Notify(w, t), t);
      CalmIsHeard(Notify(w, t), WakeBy(w, k), k);
    }
  }

  lemma WakeJoinCalls(w: World, t: Id, k: Waker)
    requires Core(w) && t in w.tasks && w.tasks[t].waker == Some(k)
    requires forall u :: u in w.tasks ==> Scheduled(w, u)
    ensures Called(w, WakeJoin(w, t), t, k)
  {
    var w' := TakeWaker(w, t);
    CountOne(w.log, JoinWoken(t, k), JoinWoken(t, k));
    TakeWakerIsCalm(w, t);
    forall u | u in w'.tasks ensures Scheduled(w', u) {
      assert Scheduled(w, u);
    }
    WakeByIsHeard(w', k);
    WakeByIsCalm(w', k);
  }

  lemma UnbindCalls(w: World, w': World, t: Id, k: Waker)
    requires Halting(w', t) && Called(w, w', t, k)
    ensures Called(w, Unbind(w', t), t, k)
  {
    UnlistedIsSteady(w', t);
    assert multiset(w'.list)[t] > 0;
    ReleaseIsSteady(Unlisted(w', t), t);
    CalmIsHeard(Unlisted(w', t), Unbind(w', t), k);
  }

  lemma CompleteCalls(w: World, t: Id, k: Waker)
    requires Core(w) && LogsOk(w) && OthersOk(w, t) && Resulted(w, t)
    requires w.tasks[t].join && w.tasks[t].waker == Some(k)
    ensures Called(w, Complete(w, t), t, k)
  {
    var c := Completed(w, t);
    CompletedIsHalting(w, t);
    forall u | u in c.tasks ensures Scheduled(c, u) {
      assert u != t ==> TaskOk(c, u);
    }
    WakeJoinCalls(c, t, k);
    WakeJoinIsCalm(c, t);
    CalmKeepsHalting(c, WakeJoin(c, t), t);
    UnbindCalls(w, WakeJoin(c, t), t, k);
  }

  /** Concluding a task wakes the waker its join handle left, and no other leaves. */
  lemma ConcludeAnswers(w: World, t: Id, x: Id, k: Waker)
    requires Core(w) && LogsOk(w) && OthersOk(w, t) && Resulted(w, t) && t in w.flight
    requires Answerable(w, t, x, k)
    ensures Attended(Conclude(w, t), x, k) || Called(w, Conclude(w, t), x, k)
  {
    CompleteKeeps(w, t);
    ReleaseIsSteady(Complete(w, t), t);
    if x == t {
      CompleteCalls(w, t, k);
      CalmIsHeard(Complete(w, t), Conclude(w, t), k);
    } else {
      CompleteAttends(w, t, x, k);
      ReleaseAttends(Complete(w, t), t, x, k);
    }
  }

  // ----- every step -----------------------------------------------------------------

  lemma CalledSince(w: World, s: World, w': World, t: Id, x: Id, k: Waker)
    requires s.log == w.log + [Resolved(t)]
    requires Attended(w', x, k) || Called(s, w', x, k)
    ensures Attended(w', x, k) || Called(w, w', x, k)
  {
    CountOne(w.log, Resolved(t), JoinWoken(x, k));
  }

  /** Attended, or about to be answered. */
  predicate Answerable(s: World, t: Id, x: Id, k: Waker) {
    t in s.tasks && if x == t then s.tasks[t].join && s.tasks[t].waker == Some(k) else Attended(s, x, k)
  }

  lemma CancellingIsAnswerable(w: World, t: Id, x: Id, k: Waker)
    requires t in w.tasks && Attended(w, x, k)
    ensures Answerable(Cancelling(w, t), t, x, k)
  {
  }

  lemma SettledIsAnswerable(w: World, o: Output, x: Id, k: Waker)
    requires w.stack != [] && Top(w) in w.tasks && Attended(w, x, k)
    ensures Answerable(Settled(w, o), Top(w), x, k)
  {
  }

  lemma CancelAnswers(w: World, t: Id, x: Id, k: Waker)
    requires Inv(w) && t in w.tasks && t in w.held && !w.tasks[t].complete && Attended(w, x, k)
    ensures Attended(Conclude(Cancelling(w, t), t), x, k) || Called(w, Conclude(Cancelling(w, t), t), x, k)
  {
    var s := Cancelling(w, t);
    CancellingKeeps(w, t);
    CancellingIsAnswerable(w, t, x, k);
    ConcludeAnswers(s, t, x, k);
    CalledSince(w, s, Conclude(s, t), t, x, k);
  }

  lemma BeginAnswers(w: World, t: Id, x: Id, k: Waker)
    requires Inv(w) && t in w.tasks && t in w.held && Attended(w, x, k)
    ensures Attended(DoBegin(w, t), x, k) || Called(w, DoBegin(w, t), x, k)
  {
    if w.tasks[t].complete {
      PassedIsSteady(w, t);
      ReleaseAttends(Passed(w, t), t, x, k);
    } else if w.tasks[t].cancelled {
      CancelAnswers(w, t, x, k);
    } else {
      assert Attended(Polling(w, t), x, k);
    }
  }

  lemma SettledAnswers(w: World, o: Output, x: Id, k: Waker)
    requires Inv(w) && w.stack != [] && Top(w) in w.tasks && Attended(w, x, k)
    ensures var w' := Conclude(Settled(w, o), Top(w)); Attended(w', x, k) || Called(w, w', x, k)
  {
    var s := Settled(w, o);
    SettledKeeps(w, o);
    SettledIsAnswerable(w, o, x, k);
    ConcludeAnswers(s, Top(w), x, k);
    CalledSince(w, s, Conclude(s, Top(w)), Top(w), x, k);
  }

  lemma FinishAnswers(w: World, o: Output, x: Id, k: Waker)
    requires Inv(w) && w.stack != [] && Top(w) in w.tasks && Attended(w, x, k)
    ensures var w' := Finish(Resolving(w, o), Top(w)); Attended(w', x, k) || Called(w, w', x, k)
  {
    RunningIsListed(w);
    FinishIsConclude(w, o);
    SettledAnswers(w, o, x, k);
  }

  lemma SuspendAnswers(w: World, x: Id, k: Waker)
    requires Inv(w) && w.stack != [] && Top(w) in w.tasks && !w.tasks[Top(w)].cancelled && Attended(w, x, k)
    ensures Attended(Suspend(Suspended(w), Top(w)), x, k)
  {
    WaitingIsSteady(w);
    SuspendIsWaiting(w);
    WaitingAttends(w, x, k);
    ReleaseAttends(Waiting(w), Top(w), x, k);
  }

  lemma WaitingAttends(w: World, x: Id, k: Waker)
    requires w.stack != [] && Top(w) in w.tasks && Attended(w, x, k)
    ensures Attended(Waiting(w), x, k)
  {
  }

  lemma EndAnswers(w: World, outcome: Outcome, x: Id, k: Waker)
    requires Inv(w) && w.stack != [] && Top(w) in w.tasks && Attended(w, x, k)
    ensures Attended(DoEnd(w, outcome), x, k) || Called(w, DoEnd(w, outcome), x, k)
  {
    match outcome
    case Ready => FinishAnswers(w, Finished, x, k);
    case Panic => FinishAnswers(w, Panicked, x, k);
    case Pending =>
      if w.tasks[Top(w)].cancelled {
        FinishAnswers(w, Cancelled, x, k);
      } else {
        SuspendAnswers(w, x, k);
      }
  }

  lemma WakeValAnswers(w: World, t: Id, x: Id, k: Waker)
    requires Inv(w) && t in w.tasks && t in w.wakers && Attended(w, x, k)
    ensures Attended(DoWakeVal(w, t), x, k)
  {
    var w' := Lifted(w, t);
    WakerInFlight(w, t);
    NotifyIsSteady(w', t);
    assert Attended(Notify(w', t), x, k);
    ReleaseAttends(Notify(w', t), t, x, k);
  }

  lemma DropWakerAnswers(w: World, t: Id, x: Id, k: Waker)
    requires Inv(w) && t in w.tasks && t in w.wakers && Attended(w, x, k)
    ensures Attended(DoDropWaker(w, t), x, k)
  {
    WakerInFlight(w, t);
    ReleaseAttends(Lifted(w, t), t, x, k);
  }

  lemma DropJoinAnswers(w: World, t: Id, x: Id, k: Waker)
    requires Inv(w) && t in w.tasks && w.tasks[t].join && t != x && Attended(w, x, k)
    ensures Attended(DoDropJoin(w, t), x, k)
  {
    LettingIsSteady(w, t);
    assert Attended(Letting(w, t), x, k);
    ReleaseAttends(Letting(w, t), t, x, k);
  }

  lemma PollJoinAnswers(w: World, t: Id, j: Waker, x: Id, k: Waker)
    requires Inv(w) && Enabled(w, PollJoin(t, j)) && Attended(w, x, k) && t != x
    ensures Attended(DoPollJoin(w, t, j), x, k)
  {
    var c := w.tasks[t];
    if c.complete {
      assert Attended(DoPollJoin(w, t, j), x, k);
    } else if c.waker != Some(j) {
      StoredIsSteady(w, t, j);
      StoredAttends(w, t, j, x, k);
    }
  }

  lemma StoredAttends(w: World, t: Id, j: Waker, x: Id, k: Waker)
    requires Inv(w) && t in w.tasks && Attended(w, x, k) && t != x && Steady(Stored(w, t, j))
    requires !w.tasks[t].complete && w.tasks[t].waker != Some(j)
    ensures Attended(DoPollJoin(w, t, j), x, k)
  {
    var c := w.tasks[t];
    assert Attended(Stored(w, t, j), x, k);
    if c.waker.Some? && c.waker.value.TaskWaker? {
      ReleaseAttends(Stored(w, t, j), c.waker.value.task, x, k);
    }
  }

  /** Steps that neither drop a handle nor end a poll. */
  lemma PlainAnswers(w: World, op: Op, x: Id, k: Waker)
    requires Core(w) && Enabled(w, op) && Attended(w, x, k)
    requires op.Spawn? || op.Next? || op.WakeRef? || op.CloneWaker? || op.Abort?
    ensures Attended(Step(w, op), x, k)
  {
    assert x < w.next;
  }

  /** Dropping the join handle, polling it again and shutting down replace its waker. */
  predicate Keeps(op: Op, x: Id) {
    op != Shutdown && op != DropJoin(x) && !(op.PollJoin? && op.t == x)
  }

  lemma StepAnswers(w: World, op: Op, x: Id, k: Waker)
    requires Inv(w) && Enabled(w, op) && Attended(w, x, k) && Keeps(op, x)
    ensures Attended(Step(w, op), x, k) || Called(w, Step(w, op), x, k)
  {
    match op
    case Begin(t) => BeginAnswers(w, t, x, k);
    case End(outcome) => EndAnswers(w, outcome, x, k);
    case WakeVal(t) => WakeValAnswers(w, t, x, k);
    case DropWaker(t) => DropWakerAnswers(w, t, x, k);
    case DropJoin(t) => DropJoinAnswers(w, t, x, k);
    case PollJoin(t, j) => PollJoinAnswers(w, t, j, x, k);
    case _ => PlainAnswers(w, op, x, k);
  }
}
