/** The sleeping futures by themselves: what their polls answer, over whole runs. The driver of
    `TimerDriver` keeps such sleeps with a wheel beneath. */
module Sleeps {
  import opened Wrappers
  import opened WheelSpec

  datatype Completion = Elapsed | ShutDown
  datatype SleepState = Unregistered | Registered | Fired
  datatype Sleep = Sleep(state: SleepState, nanos: nat, deadline: nat, complete: Completion, waker: Option<nat>)
  datatype Poll = Pending | Ready(completion: Completion)

  function NewSleep(nanos: nat): Sleep {
    Sleep(SleepState.Unregistered, nanos, 0, Elapsed, None)
  }

  /** Firing marks the sleep, sets its result and takes its waker. */
  function FireOne(s: Sleep, completion: Completion): Sleep {
    s.(state := SleepState.Fired, complete := completion, waker := None)
  }

  /** What the first poll makes of a sleep that is not registered yet. */
  function RegisterOne(s: Sleep, elapsed: nat, closed: bool): Sleep {
    var deadline := Expiry(elapsed, s.nanos);
    if s.nanos == 0 then FireOne(s, Elapsed)
    else if closed then FireOne(s, ShutDown).(deadline := deadline)
    else if deadline <= elapsed then FireOne(s, Elapsed).(deadline := deadline)
    else s.(state := SleepState.Registered, deadline := deadline)
  }

  /** A sleep that is not registered yet is registered or fired. */
  function Settled(s: Sleep, elapsed: nat, closed: bool): Sleep {
    if s.state == SleepState.Unregistered then RegisterOne(s, elapsed, closed) else s
  }

  /** The answer to a poll, and the sleep it leaves behind. */
  function PollOne(s: Sleep, elapsed: nat, closed: bool, waker: nat): (Poll, Sleep) {
    var r := Settled(s, elapsed, closed);
    if r.state == SleepState.Registered then (Pending, r.(waker := Some(waker)))
    else (Ready(r.complete), r.(complete := Elapsed))
  }

  /** The sleeps after time has moved to `now`. */
  function FireDue(sleeps: map<nat, Sleep>, now: nat): map<nat, Sleep> {
    map id | id in sleeps ::
      if sleeps[id].state == SleepState.Registered && sleeps[id].deadline <= now
      then FireOne(sleeps[id], Elapsed) else sleeps[id]
  }

  /** The sleeps after a shutdown. */
  function FailAll(sleeps: map<nat, Sleep>): map<nat, Sleep> {
    map id | id in sleeps ::
      if sleeps[id].state == SleepState.Registered then FireOne(sleeps[id], ShutDown) else sleeps[id]
  }

  // ----- one poll -------------------------------------------------------------------

  /** What a sleep that has not been polled answers first: pending, if it is at least a
      millisecond long and the wheel is open. */
  function FirstAnswer(millis: nat, rest: nat, closed: bool): Poll {
    if millis == 0 && rest == 0 then Ready(Elapsed)
    else if closed then Ready(ShutDown)
    else if millis % 0x1_0000_0000_0000_0000 == 0 then Ready(Elapsed)
    else Pending
  }

  /** What a poll does: it is pending exactly if the sleep is registered then, and a pending
      poll leaves its waker. A fired sleep answers with what it was fired with; a registered one is
      pending, and one not registered yet answers by its length. */
  predicate IsPolled(s: Sleep, s': Sleep, now: nat, closed: bool, k: nat, p: Poll) {
    && (p.Pending? <==> s'.state == SleepState.Registered)
    && (p.Pending? ==> s'.waker == Some(k))
    && match s.state
       case Fired => p == Ready(s.complete) && s' == s.(complete := Elapsed)
       case Registered => p == Pending && s' == s.(waker := Some(k))
       case Unregistered =>
         && p == FirstAnswer(s.nanos / 1_000_000, s.nanos % 1_000_000, closed)
         && (p.Pending? ==> s'.deadline == now + s.nanos / 1_000_000 % 0x1_0000_0000_0000_0000)
         && (p.Ready? ==> s'.state == SleepState.Fired && s'.waker == None)
  }

  lemma PollIsPolled(s: Sleep, now: nat, closed: bool, k: nat)
    ensures IsPolled(s, PollOne(s, now, closed, k).1, now, closed, k, PollOne(s, now, closed, k).0)
  {
    assert s.nanos == s.nanos / 1_000_000 * 1_000_000 + s.nanos % 1_000_000;
  }

  // ----- runs -----------------------------------------------------------------------

  datatype Sleepers = Sleepers(now: nat, closed: bool, all: map<nat, Sleep>)

  datatype Op =
    | Create(id: nat, nanos: nat)
    | Await(id: nat, waker: nat)
    | Drop(id: nat)
    | Park(now: nat)
    | Shutdown

  predicate Enabled(s: Sleepers, op: Op) {
    match op
    case Create(id, _) => id !in s.all
    case Await(id, _) => id in s.all
    case Drop(id) => id in s.all
    case Park(now) => s.now <= now
    case Shutdown => true
  }

  function Step(s: Sleepers, op: Op): Sleepers
    requires Enabled(s, op)
  {
    match op
    case Create(id, nanos) => s.(all := s.all[id := NewSleep(nanos)])
    case Await(id, k) => s.(all := s.all[id := PollOne(s.all[id], s.now, s.closed, k).1])
    case Drop(id) => s.(all := s.all - {id})
    case Park(now) => s.(now := now, all := FireDue(s.all, now))
    case Shutdown => s.(closed := true, all := FailAll(s.all))
  }

  /** What a poll would answer. */
  function Answer(s: Sleepers, id: nat): Poll
    requires id in s.all
  {
    PollOne(s.all[id], s.now, s.closed, 0).0
  }

  predicate Allowed(s: Sleepers, ops: seq<Op>)
    decreases |ops|
  {
    ops == [] || (Enabled(s, ops[0]) && Allowed(Step(s, ops[0]), ops[1..]))
  }

  function Run(s: Sleepers, ops: seq<Op>): Sleepers
    requires Allowed(s, ops)
    decreases |ops|
  {
    if ops == [] then s else Run(Step(s, ops[0]), ops[1..])
  }

  /** The sleep is not dropped, and has not been ready yet. */
  predicate Waits(s: Sleepers, ops: seq<Op>, id: nat)
    requires Allowed(s, ops)
    decreases |ops|
  {
    ops == [] ||
    (&& ops[0] != Drop(id)
     && (ops[0].Await? && ops[0].id == id ==> Answer(s, id) == Pending)
     && Waits(Step(s, ops[0]), ops[1..], id))
  }

  /** A shutdown comes before the time reaches the deadline. */
  predicate ClosedBefore(s: Sleepers, ops: seq<Op>, deadline: nat)
    requires Allowed(s, ops)
    decreases |ops|
  {
    ops != [] && ((ops[0] == Shutdown && s.now < deadline) || ClosedBefore(Step(s, ops[0]), ops[1..], deadline))
  }

  /** The waker of the last poll of the sleep. */
  function LastWaker(ops: seq<Op>, id: nat, k: nat): nat
    decreases |ops|
  {
    if ops == [] then k
    else LastWaker(ops[1..], id, if ops[0].Await? && ops[0].id == id then ops[0].waker else k)
  }

  /** A fired sleep stays as it is until it is polled. */
  lemma {:induction false} FiredStays(s: Sleepers, ops: seq<Op>, id: nat)
    requires Allowed(s, ops) && Waits(s, ops, id) && id in s.all && s.all[id].state == SleepState.Fired
    ensures id in Run(s, ops).all && Run(s, ops).all[id] == s.all[id] && Run(s, ops).now >= s.now
    decreases |ops|
  {
    if ops != [] {
      FiredStays(Step(s, ops[0]), ops[1..], id);
    }
  }

  lemma {:induction false} TooLateToClose(s: Sleepers, ops: seq<Op>, deadline: nat)
    requires Allowed(s, ops) && deadline <= s.now
    ensures !ClosedBefore(s, ops, deadline)
    decreases |ops|
  {
    if ops != [] {
      TooLateToClose(Step(s, ops[0]), ops[1..], deadline);
    }
  }

  /** What a poll answers, given the deadline and whether a shutdown came before it. */
  function Verdict(now: nat, deadline: nat, failed: bool): Poll {
    if failed then Ready(ShutDown) else if deadline <= now then Ready(Elapsed) else Pending
  }

  /** A registered sleep is fired at its deadline or by a shutdown, whichever comes first. */
  lemma {:induction false} RegisteredUnfolds(s: Sleepers, ops: seq<Op>, id: nat, k: nat)
    requires Allowed(s, ops) && Waits(s, ops, id) && id in s.all && s.all[id].state == SleepState.Registered
    requires s.now < s.all[id].deadline && !s.closed && s.all[id].waker == Some(k)
    ensures var s' := Run(s, ops);
            && id in s'.all
            && Answer(s', id) == Verdict(s'.now, s.all[id].deadline, ClosedBefore(s, ops, s.all[id].deadline))
            && s'.all[id].waker == if Answer(s', id) == Pending then Some(LastWaker(ops, id, k)) else None
    decreases |ops|
  {
    if ops != [] {
      var s1 := Step(s, ops[0]);
      if s1.all[id].state == SleepState.Registered {
        RegisteredUnfolds(s1, ops[1..], id, s1.all[id].waker.value);
      } else {
        FiredStays(s1, ops[1..], id);
        if ops[0].Park? {
          TooLateToClose(s1, ops[1..], s.all[id].deadline);
        }
      }
    }
  }

  /** A sleep that is not polled stays as it was created: its time has not begun. */
  lemma {:induction false} UnpolledStays(s: Sleepers, ops: seq<Op>, id: nat, nanos: nat)
    requires Allowed(s, ops) && id in s.all && s.all[id] == NewSleep(nanos)
    requires forall op :: op in ops ==> op != Drop(id) && !(op.Await? && op.id == id)
    ensures id in Run(s, ops).all && Run(s, ops).all[id] == NewSleep(nanos)
    decreases |ops|
  {
    if ops != [] {
      UnpolledStays(Step(s, ops[0]), ops[1..], id, nanos);
    }
  }

  /** In every run, from the first poll to the first that is ready: a sleep of `d` milliseconds
      and a rest, first polled at time t, is ready with success exactly from t + d on, and ready
      with an error exactly if a shutdown comes before that; until then it is pending and keeps the
      waker of its last poll. Milliseconds are cut to 64 bits. A sleep of length zero is ready at
      once, any other fails at once after a shutdown, and one of less than a millisecond is ready
      at once otherwise. */
  lemma SleepAnswers(s: Sleepers, id: nat, k: nat, d: nat, r: nat, ops: seq<Op>)
    requires id in s.all && s.all[id] == NewSleep(d * 1_000_000 + r) && r < 1_000_000
    requires Allowed(Step(s, Await(id, k)), ops) && Waits(Step(s, Await(id, k)), ops, id)
    ensures Answer(s, id) == FirstAnswer(d, r, s.closed)
    ensures Answer(s, id) == Pending ==>
              var s' := Run(Step(s, Await(id, k)), ops);
              var deadline := s.now + d % 0x1_0000_0000_0000_0000;
              var failed := ClosedBefore(Step(s, Await(id, k)), ops, deadline);
              && id in s'.all
              && Answer(s', id) == Verdict(s'.now, deadline, failed)
              && s'.all[id].waker == if Answer(s', id) == Pending then Some(LastWaker(ops, id, k)) else None
  {
    assert s.all[id].nanos / 1_000_000 == d;
    if Answer(s, id) == Pending {
      RegisteredUnfolds(Step(s, Await(id, k)), ops, id, k);
    }
  }

  // ----- resetting ------------------------------------------------------------------

  /** Resetting clears deadline, result and waker, but not the state. */
  function ResetOne(s: Sleep): Sleep {
    s.(complete := Elapsed, deadline := 0, waker := None)
  }

  /** Resetting is documented to start a sleep over for its initial length with the next poll.
      It does, whenever that poll comes, if and only if the sleep was never polled, or has fired
      and is of length zero. */
  lemma ResetStartsOver(s: Sleep)
    ensures (forall now: nat, closed: bool, k: nat ::
               PollOne(ResetOne(s), now, closed, k).0 == PollOne(NewSleep(s.nanos), now, closed, k).0)
            <==> s.state == SleepState.Unregistered || (s.state == SleepState.Fired && s.nanos == 0)
  {
    assert PollOne(NewSleep(s.nanos), 0, true, 0).0.Ready?;
    assert s.nanos > 0 ==> PollOne(NewSleep(s.nanos), 0, true, 0).0 == Ready(ShutDown);
    assert s.state == SleepState.Fired ==> PollOne(ResetOne(s), 0, true, 0).0 == Ready(Elapsed);
    assert s.state == SleepState.Registered ==> PollOne(ResetOne(s), 0, true, 0).0 == Pending;
  }
}
