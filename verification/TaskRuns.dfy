/** Whole runs of the task system. */
module TaskRuns {
  import opened TaskModel
  import opened TaskInvariant
  import opened TaskKeeps
  import opened TaskProgress
  import opened TaskJoins

  predicate Allowed(w: World, ops: seq<Op>)
    decreases |ops|
  {
    ops == [] || (Enabled(w, ops[0]) && Allowed(Step(w, ops[0]), ops[1..]))
  }

  function Run(w: World, ops: seq<Op>): World
    requires Allowed(w, ops)
    decreases |ops|
  {
    if ops == [] then w else Run(Step(w, ops[0]), ops[1..])
  }

  lemma {:induction false} RunKeeps(w: World, ops: seq<Op>)
    requires Inv(w) && Allowed(w, ops)
    ensures Inv(Run(w, ops)) && Onward(w, Run(w, ops))
    decreases |ops|
  {
    if ops == [] {
    } else {
      StepKeeps(w, ops[0]);
      StepIsOnward(w, ops[0]);
      RunKeeps(Step(w, ops[0]), ops[1..]);
      OnwardTransitive(w, Step(w, ops[0]), Run(w, ops));
    }
  }

  /** In every reachable state the cells that exist are exactly those with a handle, a
      task has at most one runnable, an incomplete one exactly when it is notified and
      not running, and the task set holds exactly the incomplete tasks, each once. */
  lemma ReachableIsSound(ops: seq<Op>, t: Id)
    requires Allowed(EmptyWorld, ops)
    ensures Inv(Run(EmptyWorld, ops))
    ensures var w := Run(EmptyWorld, ops);
            && (t in w.tasks <==> Handles(w, t) > 0)
            && multiset(w.queue)[t] + w.held[t] <= 1
            && (t in w.tasks && !w.tasks[t].complete ==>
                  multiset(w.queue)[t] + w.held[t] == if w.tasks[t].notified && !w.tasks[t].running then 1 else 0)
            && multiset(w.list)[t] == if t in w.tasks && !w.tasks[t].complete then 1 else 0
  {
    assert forall x :: EmptyWorld.stored[x] == |Holders(EmptyWorld.tasks, x)| by {
      assert forall x :: Holders(EmptyWorld.tasks, x) == {};
    }
    assert forall x :: LogOk(EmptyWorld, x);
    RunKeeps(EmptyWorld, ops);
    var w := Run(EmptyWorld, ops);
    assert t in w.tasks <==> Handles(w, t) > 0;
    assert t in w.tasks ==> TaskOk(w, t);
  }

  // ----- wakes ----------------------------------------------------------------------

  /** Nothing is left to run. */
  predicate Idle(w: World) {
    w.queue == [] && w.held == multiset{} && w.stack == []
  }

  lemma IdleOwesNothing(w: World, t: Id)
    requires Inv(w) && Idle(w)
    ensures !Owed(w, t)
  {
    assert t in w.tasks ==> TaskOk(w, t);
  }

  /** A poll that is owed has started, or is needed no more, once nothing is left to run. */
  lemma OwedIsPaid(w: World, ops: seq<Op>, t: Id)
    requires Inv(w) && Allowed(w, ops) && (Owed(w, t) || Done(w, t)) && Idle(Run(w, ops))
    ensures Polls(Run(w, ops), t) > Polls(w, t) || Done(Run(w, ops), t)
  {
    RunKeeps(w, ops);
    IdleOwesNothing(Run(w, ops), t);
    assert Moves(w, Run(w, ops), t);
  }

  /** No wake is lost: a wake by value or by reference is followed by a poll that starts
      after it, unless the task is done by then. */
  lemma NoLostWake(w: World, wake: Op, ops: seq<Op>, t: Id)
    requires Inv(w) && Enabled(w, wake) && (wake == WakeRef(t) || wake == WakeVal(t))
    requires Allowed(Step(w, wake), ops) && Idle(Run(Step(w, wake), ops))
    ensures var w' := Run(Step(w, wake), ops);
            Polls(w', t) > Polls(Step(w, wake), t) || Done(w', t)
  {
    if wake.WakeRef? {
      NotifyIsOnward(w, t);
    } else {
      WakeValIsOnward(w, t);
    }
    StepKeeps(w, wake);
    OwedIsPaid(Step(w, wake), ops, t);
  }

  /** A spawned task is polled, unless it is done before. */
  lemma SpawnedIsPolled(w: World, ops: seq<Op>)
    requires Inv(w) && Allowed(DoSpawn(w), ops) && Idle(Run(DoSpawn(w), ops))
    ensures Polls(Run(DoSpawn(w), ops), w.next) > Polls(DoSpawn(w), w.next) || Done(Run(DoSpawn(w), ops), w.next)
  {
    StepKeeps(w, Spawn);
    OwedIsPaid(DoSpawn(w), ops, w.next);
  }

  // ----- outputs --------------------------------------------------------------------

  /** In every run the future of a task is dropped at most once, its result goes to the
      join handle or is dropped, never both and never twice; and when the cell is freed
      both have happened. */
  lemma OutputHandledOnce(ops: seq<Op>, t: Id)
    requires Allowed(EmptyWorld, ops)
    ensures var w := Run(EmptyWorld, ops);
            && Count(w.log, Delivered(t)) + Count(w.log, Discarded(t)) <= Count(w.log, Resolved(t)) <= 1
            && (Gone(w, t) ==> Count(w.log, Delivered(t)) + Count(w.log, Discarded(t)) == 1)
            && (Done(w, t) <==> Count(w.log, Resolved(t)) == 1)
  {
    ReachableIsSound(ops, t);
    assert LogOk(Run(EmptyWorld, ops), t);
  }

  /** A join handle that has not returned yet and finds its task complete finds a result, and
      takes it: this is the one time the result is delivered. */
  lemma JoinFindsResult(ops: seq<Op>, t: Id, k: Waker)
    requires Allowed(EmptyWorld, ops) && Enabled(Run(EmptyWorld, ops), PollJoin(t, k))
    requires Run(EmptyWorld, ops).tasks[t].complete
    ensures var w := Run(EmptyWorld, ops); var w' := DoPollJoin(w, t, k);
            && w.tasks[t].slot.Result? && t in w'.tasks && w'.tasks[t].slot.Empty?
            && Count(w.log, Delivered(t)) == 0 && Count(w'.log, Delivered(t)) == 1
            && Count(w'.log, Discarded(t)) == 0
  {
    ReachableIsSound(ops, t);
    var w := Run(EmptyWorld, ops);
    assert TaskOk(w, t) && LogOk(w, t);
    CountOne(w.log, Delivered(t), Delivered(t));
    CountOne(w.log, Delivered(t), Discarded(t));
  }

  // ----- joining --------------------------------------------------------------------

  lemma {:induction false} AttendedIsAnswered(w: World, ops: seq<Op>, x: Id, k: Waker)
    requires Inv(w) && Allowed(w, ops) && Attended(w, x, k)
    requires forall op :: op in ops ==> Keeps(op, x)
    requires Done(Run(w, ops), x)
    ensures Woken(Run(w, ops), x, k) > Woken(w, x, k)
    ensures k.TaskWaker? && Idle(Run(w, ops)) ==>
              Polls(Run(w, ops), k.task) > Polls(w, k.task) || Done(Run(w, ops), k.task)
    decreases |ops|
  {
    var w' := Step(w, ops[0]);
    StepKeeps(w, ops[0]);
    StepIsOnward(w, ops[0]);
    StepAnswers(w, ops[0], x, k);
    if Attended(w', x, k) {
      AttendedIsAnswered(w', ops[1..], x, k);
    } else {
      RunKeeps(w', ops[1..]);
      if k.TaskWaker? && Idle(Run(w, ops)) {
        OwedIsPaid(w', ops[1..], k.task);
      }
    }
    assert Count(w'.log, JoinWoken(x, k)) >= Count(w.log, JoinWoken(x, k));
  }

  /** The waker with which a join handle is polled before its task is complete is woken when
      the task ends, in every run that leaves the join handle alone and does not shut down;
      and the task it belongs to is polled after that, or done, once nothing is left to run. */
  lemma AwaiterIsAnswered(w: World, ops: seq<Op>, x: Id, k: Waker)
    requires Inv(w) && Enabled(w, PollJoin(x, k)) && !w.tasks[x].complete
    requires Allowed(DoPollJoin(w, x, k), ops) && forall op :: op in ops ==> Keeps(op, x)
    requires Done(Run(DoPollJoin(w, x, k), ops), x)
    ensures var w' := Run(DoPollJoin(w, x, k), ops);
            && Woken(w', x, k) > Woken(w, x, k)
            && (k.TaskWaker? && Idle(w') ==> Polls(w', k.task) > Polls(w, k.task) || Done(w', k.task))
  {
    StepKeeps(w, PollJoin(x, k));
    StepIsOnward(w, PollJoin(x, k));
    PendingJoinAttends(w, x, k);
    AttendedIsAnswered(DoPollJoin(w, x, k), ops, x, k);
    assert Count(DoPollJoin(w, x, k).log, JoinWoken(x, k)) >= Count(w.log, JoinWoken(x, k));
    assert k.TaskWaker? ==> Polls(DoPollJoin(w, x, k), k.task) >= Polls(w, k.task);
  }
}
