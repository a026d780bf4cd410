/** Aborting: what it stops, and what it decides about the result. */
module TaskAborts {
  import opened TaskModel
  import opened TaskInvariant
  import opened TaskSteps
  import opened TaskKeeps
  import opened TaskProgress
  import opened TaskJoins
  import opened TaskRuns

  // ----- aborting -------------------------------------------------------------------

  /** After an abort no poll of the task ever starts. Once nothing is left to run the task
      is done. If it was not running it ends cancelled, whatever happens. */
  lemma AbortStops(w: World, ops: seq<Op>, t: Id)
    requires Inv(w) && Enabled(w, Abort(t)) && Allowed(DoAbort(w, t), ops)
    ensures var w' := Run(DoAbort(w, t), ops);
            && Polls(w', t) == Polls(w, t)
            && (Idle(w') ==> Done(w', t))
            && (HasFuture(w, t) && !w.tasks[t].running ==> Doomed(w', t))
  {
    AbortIsOnward(w, t);
    StepKeeps(w, Abort(t));
    RunKeeps(DoAbort(w, t), ops);
    assert Moves(DoAbort(w, t), Run(DoAbort(w, t), ops), t);
    if Idle(Run(DoAbort(w, t), ops)) {
      IdleOwesNothing(Run(DoAbort(w, t), ops), t);
    }
  }

  /** An abort during a poll: when the poll returns pending the task ends cancelled. */
  lemma AbortDuringPoll(w: World, ops: seq<Op>)
    requires Inv(w) && w.stack != [] && Top(w) in w.tasks && w.tasks[Top(w)].cancelled
    requires Allowed(DoEnd(w, Pending), ops)
    ensures var w' := Run(DoEnd(w, Pending), ops); Done(w', Top(w)) && Doomed(w', Top(w))
  {
    FinishIsOnward(w, Cancelled);
    StepKeeps(w, End(Pending));
    RunKeeps(DoEnd(w, Pending), ops);
    assert Moves(DoEnd(w, Pending), Run(DoEnd(w, Pending), ops), Top(w));
  }

  /** While the join handle is there its task outlives any other handle. */
  lemma JoinedSurvives(w: World, t: Id)
    requires t in w.tasks && w.tasks[t].join && t in w.flight
    ensures Release(w, t) == w.(flight := w.flight - multiset{t})
  {
  }

  lemma JoinedUnbind(w: World, t: Id)
    requires Halting(w, t) && w.tasks[t].join
    ensures t in Unbind(w, t).tasks && Unbind(w, t).tasks[t] == w.tasks[t]
  {
    assert multiset(w.list)[t] > 0;
    JoinedSurvives(Unlisted(w, t), t);
  }

  /** Completing a task leaves its result to the join handle. */
  lemma JoinedComplete(w: World, t: Id)
    requires Core(w) && LogsOk(w) && OthersOk(w, t) && Resulted(w, t) && w.tasks[t].join
    ensures t in Complete(w, t).tasks && Complete(w, t).tasks[t].slot == w.tasks[t].slot
    ensures Complete(w, t).tasks[t].join
  {
    var c := Completed(w, t);
    CompletedIsHalting(w, t);
    WakeJoinIsCalm(c, t);
    CalmKeepsHalting(c, WakeJoin(c, t), t);
    JoinedUnbind(WakeJoin(c, t), t);
  }

  lemma JoinedFinish(w: World, o: Output)
    requires Inv(w) && w.stack != [] && Top(w) in w.tasks && w.tasks[Top(w)].join
    ensures var w' := Finish(Resolving(w, o), Top(w));
            && Top(w) in w'.tasks && w'.tasks[Top(w)].slot == Result(o)
  {
    var s, t := Settled(w, o), Top(w);
    RunningIsListed(w);
    FinishIsConclude(w, o);
    SettledKeeps(w, o);
    JoinedComplete(s, t);
    CompleteKeeps(s, t);
    JoinedSurvives(Complete(s, t), t);
  }

  /** An abort during a poll: the result left to the join handle is cancelled exactly if
      the poll returns pending. One that returns for good keeps what it returned. */
  lemma AbortedPollResult(w: World, outcome: Outcome)
    requires Inv(w) && w.stack != [] && Top(w) in w.tasks
    requires w.tasks[Top(w)].cancelled && w.tasks[Top(w)].join
    ensures var w' := DoEnd(w, outcome); var t := Top(w);
            && t in w'.tasks && w'.tasks[t].slot.Result?
            && (w'.tasks[t].slot.output == Cancelled <==> outcome == Pending)
            && (w'.tasks[t].slot.output == Finished <==> outcome == Outcome.Ready)
  {
    JoinedFinish(w, match outcome
                    case Ready => Finished
                    case Panic => Panicked
                    case Pending => Cancelled);
  }

  // ----- what an abort decides ------------------------------------------------------

  /** The polls in progress and the join handles are the same. */
  ghost predicate SameHolders(w: World, w': World) {
    && w'.stack == w.stack
    && (forall x :: x in w'.tasks ==> x in w.tasks && w'.tasks[x].join == w.tasks[x].join)
  }

  lemma CalmKeepsHolders(w: World, w': World)
    requires Calm(w, w')
    ensures SameHolders(w, w')
  {
  }

  lemma ConcludeKeepsHolders(w: World, t: Id)
    requires Core(w) && LogsOk(w) && OthersOk(w, t) && Resulted(w, t) && t in w.flight
    ensures SameHolders(w, Conclude(w, t))
  {
    var c := Completed(w, t);
    CompletedIsHalting(w, t);
    CompletedKeepsHolders(w, t);
    if w.tasks[t].join {
      WakeJoinIsCalm(c, t);
      CalmKeepsHalting(c, WakeJoin(c, t), t);
      CalmKeepsHolders(c, WakeJoin(c, t));
      UnbindKeepsHolders(WakeJoin(c, t), t);
    } else {
      UnbindKeepsHolders(c, t);
    }
    CompleteKeeps(w, t);
    ReleaseIsSteady(Complete(w, t), t);
    CalmKeepsHolders(Complete(w, t), Conclude(w, t));
  }

  lemma CompletedKeepsHolders(w: World, t: Id)
    requires t in w.tasks
    ensures SameHolders(w, Completed(w, t))
  {
  }

  lemma UnbindKeepsHolders(w: World, t: Id)
    requires Halting(w, t)
    ensures SameHolders(w, Unbind(w, t))
  {
    assert multiset(w.list)[t] > 0;
    UnlistedIsSteady(w, t);
    ReleaseIsSteady(Unlisted(w, t), t);
    CalmKeepsHolders(Unlisted(w, t), Unbind(w, t));
  }

  /** The end of a poll pops it, and leaves the other polls and all join handles. */
  ghost predicate PopsTop(w: World, w': World)
    requires w.stack != []
  {
    && w'.stack == w.stack[..|w.stack| - 1]
    && (forall x :: x in w'.tasks ==> x in w.tasks && w'.tasks[x].join == w.tasks[x].join)
  }

  lemma SettledPopsTop(w: World, o: Output)
    requires w.stack != [] && Top(w) in w.tasks
    ensures PopsTop(w, Settled(w, o)) && PopsTop(w, Waiting(w))
  {
  }

  lemma PopsTopThen(w: World, s: World, w': World)
    requires w.stack != [] && PopsTop(w, s) && SameHolders(s, w')
    ensures PopsTop(w, w')
  {
  }

  lemma FinishPopsTop(w: World, o: Output)
    requires Inv(w) && w.stack != [] && Top(w) in w.tasks
    ensures PopsTop(w, Finish(Resolving(w, o), Top(w)))
  {
    SettledPopsTop(w, o);
    RunningIsListed(w);
    SettledKeeps(w, o);
    FinishIsConclude(w, o);
    ConcludeKeepsHolders(Settled(w, o), Top(w));
    PopsTopThen(w, Settled(w, o), Conclude(Settled(w, o), Top(w)));
  }

  lemma SuspendPopsTop(w: World)
    requires Inv(w) && w.stack != [] && Top(w) in w.tasks && !w.tasks[Top(w)].cancelled
    ensures PopsTop(w, Suspend(Suspended(w), Top(w)))
  {
    SettledPopsTop(w, Cancelled);
    WaitingIsSteady(w);
    SuspendIsWaiting(w);
    ReleaseIsSteady(Waiting(w), Top(w));
    CalmKeepsHolders(Waiting(w), Suspend(Suspended(w), Top(w)));
    PopsTopThen(w, Waiting(w), Suspend(Suspended(w), Top(w)));
  }

  lemma PendingPopsTop(w: World) returns (w': World)
    requires Inv(w) && w.stack != [] && Top(w) in w.tasks
    ensures w' == DoEnd(w, Pending) && PopsTop(w, w')
  {
    PendingEnds(w);
    if w.tasks[Top(w)].cancelled {
      FinishPopsTop(w, Cancelled);
      w' := Finish(Resolving(w, Cancelled), Top(w));
    } else {
      SuspendPopsTop(w);
      w' := Suspend(Suspended(w), Top(w));
    }
  }

  lemma RunOfOne(w: World, op: Op, rest: seq<Op>)
    requires Enabled(w, op)
    ensures Allowed(w, [op] + rest) <==> Allowed(Step(w, op), rest)
    ensures Allowed(Step(w, op), rest) ==> Run(w, [op] + rest) == Run(Step(w, op), rest)
  {
    assert ([op] + rest)[1..] == rest;
  }

  lemma InnerIsThere(w: World, w': World, t: Id)
    requires t in w.stack && t in w.tasks && w.tasks[t].join && Top(w) != t && PopsTop(w, w') && Live(w')
    ensures t in w'.stack && t in w'.tasks && w'.tasks[t].join && |w'.stack| < |w.stack|
  {
    assert w.stack == w.stack[..|w.stack| - 1] + [Top(w)];
    ListedIsThere(w');
  }

  /** A poll inside another returns pending, and the other goes on. */
  lemma InnerPollReturns(w: World, t: Id) returns (w': World)
    requires Inv(w) && t in w.stack && t in w.tasks && w.tasks[t].join && Top(w) != t
    ensures Enabled(w, End(Pending)) && w' == Step(w, End(Pending)) && Inv(w')
    ensures t in w'.stack && t in w'.tasks && w'.tasks[t].join && |w'.stack| < |w.stack|
  {
    RunningIsListed(w);
    EndKeeps(w, Pending);
    w' := PendingPopsTop(w);
    InnerIsThere(w, w', t);
  }

  lemma PollFinishes(w: World, t: Id)
    requires Inv(w) && t in w.tasks && w.tasks[t].join && w.stack != [] && Top(w) == t
    ensures Enabled(w, End(Outcome.Ready)) && !Doomed(DoEnd(w, Outcome.Ready), t)
  {
    JoinedFinish(w, Finished);
  }

  /** A task being polled can still finish: the polls inside return pending, then its own
      returns ready. */
  lemma {:induction false} RunningCanFinish(w: World, t: Id) returns (ops: seq<Op>)
    requires Inv(w) && t in w.stack && t in w.tasks && w.tasks[t].join
    ensures Allowed(w, ops) && !Doomed(Run(w, ops), t)
    decreases |w.stack|
  {
    if Top(w) == t {
      PollFinishes(w, t);
      RunOfOne(w, End(Outcome.Ready), []);
      ops := [End(Outcome.Ready)] + [];
    } else {
      var w' := InnerPollReturns(w, t);
      var rest := RunningCanFinish(w', t);
      RunOfOne(w, End(Pending), rest);
      ops := [End(Pending)] + rest;
    }
  }

  /** The guard of an abort decides: the result of an unfinished task can only be cancelled,
      whatever follows, if and only if its future was not being polled when it was aborted. */
  lemma AbortDecides(w: World, t: Id)
    requires Inv(w) && Enabled(w, Abort(t)) && HasFuture(w, t)
    ensures (forall ops :: Allowed(DoAbort(w, t), ops) ==> Doomed(Run(DoAbort(w, t), ops), t))
            <==> !w.tasks[t].running
  {
    var w' := DoAbort(w, t);
    if w.tasks[t].running {
      AbortKeeps(w, t);
      assert TaskOk(w, t);
      assert multiset(w.stack)[t] == 1;
      assert w'.stack == w.stack && t in w'.stack;
      var ops := RunningCanFinish(w', t);
      assert !Doomed(Run(w', ops), t);
    } else {
      forall ops | Allowed(w', ops) ensures Doomed(Run(w', ops), t) {
        AbortStops(w, ops, t);
      }
    }
  }

  const ABORTED_WHILE_POLLED := [Spawn, Next, Begin(0), Abort(0)]

  /** Such a state is reached: a task that is aborted during its first poll. It finishes all
      the same if that poll returns ready. */
  lemma AbortedTaskFinishes()
    ensures Allowed(EmptyWorld, ABORTED_WHILE_POLLED)
    ensures var w := Run(EmptyWorld, ABORTED_WHILE_POLLED);
            && w.stack == [0] && HasFuture(w, 0) && w.tasks[0].cancelled && w.tasks[0].running && w.tasks[0].join
            && Enabled(w, End(Outcome.Ready))
            && HasResult(DoEnd(w, Outcome.Ready), 0) && DoEnd(w, Outcome.Ready).tasks[0].slot.output == Finished
  {
    var w1 := Step(EmptyWorld, Spawn);
    var w2 := Step(w1, Next);
    assert w2.held == multiset{0} && w2.tasks == w1.tasks;
    var w3 := Step(w2, Begin(0));
    assert w3.stack == [0];
    var w4 := Step(w3, Abort(0));
    var ops := ABORTED_WHILE_POLLED;
    assert ops[1..] == [Next, Begin(0), Abort(0)];
    assert ops[1..][1..] == [Begin(0), Abort(0)];
    assert ops[1..][1..][1..] == [Abort(0)];
    assert Allowed(w4, []) && Allowed(w3, [Abort(0)]) && Allowed(w2, [Begin(0), Abort(0)]);
    assert Allowed(w1, ops[1..]) && Allowed(EmptyWorld, ops);
    assert Run(w3, [Abort(0)]) == Run(w4, []) == w4;
    assert Run(w2, [Begin(0), Abort(0)]) == w4;
    assert Run(w1, ops[1..]) == w4;
    assert Run(EmptyWorld, ops) == w4;
    ReachableIsSound(ops, 0);
    JoinedFinish(w4, Finished);
  }
}
