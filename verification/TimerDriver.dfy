/** The sleeping futures on top of the wheel: polling, dropping, parking, shutdown.

    A sleep is registered exactly when the wheel holds its timer, so a drop always
    finds it, and parking fires exactly the sleeps whose deadline has passed. */
module TimerDriver {
  import opened Sleeps
  import opened Wrappers
  import opened Ticks
  import opened WheelSpec
  import opened WheelPlacement
  import opened WheelAdvance
  import opened WheelRefinement
  import Wheels

  /** A sleep is woken by the waker it kept. */
  datatype Wakeup = Wakeup(id: nat, waker: nat)

  /** The deadlines of the registered sleeps: the plain map the wheel stands in for. */
  function Deadlines(sleeps: map<nat, Sleep>): map<nat, nat> {
    map id | id in sleeps && sleeps[id].state == SleepState.Registered :: sleeps[id].deadline
  }

  lemma DeadlinesUpdate(sleeps: map<nat, Sleep>, id: nat, s: Sleep)
    ensures Deadlines(sleeps[id := s])
         == if s.state == SleepState.Registered then Deadlines(sleeps)[id := s.deadline]
            else Deadlines(sleeps) - {id}
  {
  }

  lemma NotRegistered(sleeps: map<nat, Sleep>, id: nat)
    requires id in sleeps ==> sleeps[id].state != SleepState.Registered
    ensures Deadlines(sleeps) - {id} == Deadlines(sleeps)
  {
  }

  lemma UpdateTwice(sleeps: map<nat, Sleep>, id: nat, s: Sleep, t: Sleep)
    ensures sleeps[id := s][id := t] == sleeps[id := t]
    ensures id in sleeps ==> sleeps[id := sleeps[id]] == sleeps
  {
  }

  lemma DeadlinesWithout(sleeps: map<nat, Sleep>, id: nat)
    ensures Deadlines(sleeps - {id}) == Deadlines(sleeps) - {id}
  {
  }

  /** A sleep that asks for time takes a deadline, and then hears what became of its timer. */
  function Informed(s: Sleep, elapsed: nat, outcome: Outcome): Sleep {
    var asked := if s.nanos == 0 then s
                 else s.(state := SleepState.Registered, deadline := Expiry(elapsed, s.nanos));
    match outcome
    case Registered => asked
    case Fired => FireOne(asked, Elapsed)
    case Refused => FireOne(asked, ShutDown)
  }

  /** Registering a sleep is starting its timer on the map. */
  lemma RegisterIsStart(m: TimerMap, sleeps: map<nat, Sleep>, id: nat)
    requires id in sleeps && sleeps[id].state == SleepState.Unregistered && m.due == Deadlines(sleeps)
    ensures var s := RegisterOne(sleeps[id], m.now, m.closed);
            var step := MapStep(m, Start(id, sleeps[id].nanos));
            && step.0 == m.(due := Deadlines(sleeps[id := s]))
            && step.1.Started? && s == Informed(sleeps[id], m.now, step.1.outcome)
  {
    DeadlinesUpdate(sleeps, id, RegisterOne(sleeps[id], m.now, m.closed));
    NotRegistered(sleeps, id);
  }

  /** What registering asks for: a deadline that fits 64 bits. */
  predicate MayRegister(s: Sleep, elapsed: nat) {
    s.state == SleepState.Unregistered ==> Expiry(elapsed, s.nanos) < U64_END
  }

  predicate IsNear(s: Sleep, elapsed: nat) {
    s.state == SleepState.Unregistered ==> InHorizon(elapsed, Expiry(elapsed, s.nanos))
  }

  class Driver {
    const wheels: Wheels.Wheels
    var sleeps: map<nat, Sleep>

    /** The plain map that the driver implements. */
    ghost function Map(): TimerMap
      reads this, wheels
    {
      TimerMap(wheels.elapsed, wheels.shutdown, Deadlines(sleeps))
    }

    /** The sleeps and the time, as `Sleeps` has them. */
    ghost function View(): Sleepers
      reads this, wheels
    {
      Sleepers(wheels.elapsed, wheels.shutdown, sleeps)
    }

    ghost predicate Valid()
      reads this, wheels, wheels.repr
    {
      this !in wheels.repr && wheels.Valid() && Holds(wheels.View(), Map())
    }

    /** No timer was ever started too far ahead, so that the wheel is a map. */
    ghost predicate IsExact()
      requires wheels.Valid()
      reads this, wheels, wheels.repr
    {
      Exact(wheels.View())
    }

    constructor ()
      ensures Valid() && IsExact() && sleeps == map[] && wheels.View() == EmptyWheel
      ensures fresh(wheels) && fresh(wheels.repr)
    {
      wheels := new Wheels.Wheels();
      sleeps := map[];
      new;
      NoTimersHeld(EmptyWheel);
      assert this !in wheels.repr;
    }

    /** A new sleep is not registered until it is first polled. */
    method Create(id: nat, nanos: nat)
      requires Valid() && id !in sleeps
      modifies this
      ensures Valid() && IsExact() == old(IsExact())
      ensures View() == Step(old(View()), Sleeps.Create(id, nanos))
    {
      sleeps := sleeps[id := NewSleep(nanos)];
      assert Deadlines(sleeps) == Deadlines(old(sleeps));
    }

    /** Registers the sleep, or fires it on the spot. */
    method AddTimer(id: nat)
      requires Valid() && id in sleeps && sleeps[id].state == SleepState.Unregistered
      requires MayRegister(sleeps[id], wheels.elapsed)
      modifies this, wheels.repr
      ensures Valid() && wheels.elapsed == old(wheels.elapsed) && wheels.shutdown == old(wheels.shutdown)
      ensures sleeps == old(sleeps)[id := RegisterOne(old(sleeps[id]), wheels.elapsed, wheels.shutdown)]
      ensures old(IsExact() && IsNear(sleeps[id], wheels.elapsed)) ==> IsExact()
    {
      RegisterIsStart(Map(), sleeps, id);
      var outcome := StartTimer(id);
      sleeps := sleeps[id := Informed(sleeps[id], wheels.elapsed, outcome)];
    }

    /** Hands the timer to the wheel; only the sleep has yet to be told. */
    method StartTimer(id: nat) returns (outcome: Outcome)
      requires Valid() && id in sleeps && sleeps[id].state == SleepState.Unregistered
      requires MayRegister(sleeps[id], wheels.elapsed)
      modifies wheels.repr
      ensures wheels.Valid()
      ensures Holds(wheels.View(), MapStep(old(Map()), Start(id, sleeps[id].nanos)).0)
      ensures Started(outcome) == MapStep(old(Map()), Start(id, sleeps[id].nanos)).1
      ensures old(IsExact() && IsNear(sleeps[id], wheels.elapsed)) ==> Exact(wheels.View())
    {
      StartHolds(wheels.View(), Map(), id, sleeps[id].nanos);
      outcome := wheels.Add(id, sleeps[id].nanos);
    }

    /** The answer of a sleep that is registered or fired. */
    method Answer(id: nat, waker: nat) returns (p: Poll)
      requires Valid() && id in sleeps && sleeps[id].state != SleepState.Unregistered
      modifies this
      ensures Valid() && IsExact() == old(IsExact())
      ensures p == PollOne(old(sleeps[id]), wheels.elapsed, wheels.shutdown, waker).0
      ensures sleeps == old(sleeps)[id := PollOne(old(sleeps[id]), wheels.elapsed, wheels.shutdown, waker).1]
      ensures IsPolled(old(sleeps[id]), sleeps[id], wheels.elapsed, wheels.shutdown, waker, p)
    {
      PollIsPolled(sleeps[id], wheels.elapsed, wheels.shutdown, waker);
      var s := sleeps[id];
      ghost var before := sleeps;
      if s.state == SleepState.Registered {
        sleeps := sleeps[id := s.(waker := Some(waker))];
        p := Pending;
      } else {
        NotRegistered(sleeps, id);
        sleeps := sleeps[id := s.(complete := Elapsed)];
        p := Ready(s.complete);
      }
      DeadlinesUpdate(before, id, sleeps[id]);
      assert Deadlines(sleeps) == Deadlines(before);
    }

    /** Registers the sleep until it is registered or fired, which takes at most one turn. */
    method Settle(id: nat)
      requires Valid() && id in sleeps && MayRegister(sleeps[id], wheels.elapsed)
      modifies this, wheels.repr
      ensures Valid() && wheels.elapsed == old(wheels.elapsed) && wheels.shutdown == old(wheels.shutdown)
      ensures sleeps == old(sleeps)[id := Settled(old(sleeps[id]), wheels.elapsed, wheels.shutdown)]
      ensures old(IsExact() && IsNear(sleeps[id], wheels.elapsed)) ==> IsExact()
    {
      ghost var near := IsExact() && IsNear(sleeps[id], wheels.elapsed);
      ghost var settled := sleeps[id := Settled(sleeps[id], wheels.elapsed, wheels.shutdown)];
      while sleeps[id].state == SleepState.Unregistered
        invariant Valid() && id in sleeps && MayRegister(sleeps[id], wheels.elapsed)
        invariant wheels.elapsed == old(wheels.elapsed) && wheels.shutdown == old(wheels.shutdown)
        invariant settled == sleeps[id := Settled(sleeps[id], wheels.elapsed, wheels.shutdown)]
        invariant near ==> IsExact() && IsNear(sleeps[id], wheels.elapsed)
        decreases if sleeps[id].state == SleepState.Unregistered then 1 else 0
      {
        AddTimer(id);
      }
    }

    /** Polls a sleep: a new one is registered first, whatever its length. The poll is pending
        exactly if the sleep is registered then, and leaves its waker; a sleep that has fired answers
        with what it was fired with. */
    method PollSleep(id: nat, waker: nat) returns (p: Poll)
      requires Valid() && id in sleeps && MayRegister(sleeps[id], wheels.elapsed)
      modifies this, wheels.repr
      ensures Valid() && old(Enabled(View(), Sleeps.Await(id, waker)))
      ensures View() == Step(old(View()), Sleeps.Await(id, waker)) && p == Sleeps.Answer(old(View()), id)
      ensures IsPolled(old(sleeps[id]), sleeps[id], wheels.elapsed, wheels.shutdown, waker, p)
      ensures old(IsExact() && IsNear(sleeps[id], wheels.elapsed)) ==> IsExact()
    {
      PollIsPolled(sleeps[id], wheels.elapsed, wheels.shutdown, waker);
      ghost var r := PollOne(sleeps[id], wheels.elapsed, wheels.shutdown, waker);
      Settle(id);
      UpdateTwice(old(sleeps), id, sleeps[id], r.1);
      p := Answer(id, waker);
    }

    /** Dropping a registered sleep takes its timer out of the wheel. */
    method DropSleep(id: nat)
      requires Valid() && id in sleeps && IsExact()
      modifies this, wheels.repr
      ensures Valid() && IsExact() && View() == Step(old(View()), Sleeps.Drop(id))
    {
      if sleeps[id].state == SleepState.Registered {
        var e := Entry(id, sleeps[id].deadline);
        RegisteredIsFound(wheels.View(), Map(), e);
        wheels.Remove(e);
      } else {
        NotRegistered(sleeps, id);
      }
      DeadlinesWithout(sleeps, id);
      sleeps := sleeps - {id};
    }

    /** Fires one sleep, and wakes it if it kept a waker. */
    method Fire(id: nat, completion: Completion) returns (woken: seq<Wakeup>)
      requires id in sleeps
      modifies this
      ensures id in old(sleeps) && sleeps == old(sleeps)[id := FireOne(old(sleeps)[id], completion)]
      ensures woken == if old(sleeps)[id].waker.Some? then [Wakeup(id, old(sleeps)[id].waker.value)] else []
    {
      woken := if sleeps[id].waker.Some? then [Wakeup(id, sleeps[id].waker.value)] else [];
      sleeps := sleeps[id := FireOne(sleeps[id], completion)];
    }

    /** Fires the sleeps of a list of timers the wheel has let go: each that kept a waker is
        woken by it, once. */
    method FireEach(entries: seq<Entry>, completion: Completion) returns (woken: seq<Wakeup>)
      requires forall e :: e in entries ==> e.id in sleeps
      modifies this
      ensures sleeps == FireListed(old(sleeps), entries, completion)
      ensures WokenOnce(old(sleeps), sleeps, woken)
    {
      woken := [];
      for i := 0 to |entries|
        invariant sleeps == FireListed(old(sleeps), entries[..i], completion)
        invariant WokenOnce(old(sleeps), sleeps, woken)
      {
        ghost var before := sleeps;
        var id := entries[i].id;
        var w := Fire(id, completion);
        FireListedNext(old(sleeps), entries, i, completion);
        TakenWhenFired(old(sleeps), entries[..i], completion);
        WokenNext(old(sleeps), before, sleeps, id, completion, woken, w);
        woken := woken + w;
      }
      assert entries[..|entries|] == entries;
    }

    /** Advances the wheel; only the sleeps have yet to be told. */
    method AdvanceWheel(ticks: nat, mode: ParkMode) returns (parked: ParkMode, entries: seq<Entry>)
      requires Valid() && IsExact() && wheels.elapsed <= ticks < U64_END
      modifies wheels, wheels.repr
      ensures wheels.Valid()
      ensures (forall e :: e in entries ==> e.id in sleeps)
              && FireListed(sleeps, entries, Elapsed) == FireDue(sleeps, ticks)
      ensures Represents(wheels.View(), TimerMap(ticks, old(wheels.shutdown), Deadlines(FireDue(sleeps, ticks))))
      ensures ParksUntil(parked, mode, FireDue(sleeps, ticks) != sleeps, NextExpiration(wheels.View()), ticks)
      ensures InTime(parked, ticks, FireDue(sleeps, ticks))
    {
      ghost var m := Map();
      TickRefines(wheels.View(), m, ticks);
      ParkPassesNoDeadline(wheels.View(), mode, ticks);
      var fired, next;
      fired, next, entries := wheels.Advance(ticks);
      parked := ParkAfter(mode, fired, next, ticks);
      FiringHolds(wheels.View(), m, sleeps, entries, ticks);
    }

    /** Advances the wheel to `ticks` and fires what is due. */
    method Park(ticks: nat, mode: ParkMode) returns (parked: ParkMode, woken: seq<Wakeup>)
      requires Valid() && IsExact() && wheels.elapsed <= ticks < U64_END
      modifies this, wheels, wheels.repr
      ensures Valid() && IsExact() && View() == Step(old(View()), Sleeps.Park(ticks))
      ensures WokenOnce(old(sleeps), sleeps, woken)
      ensures ParksUntil(parked, mode, sleeps != old(sleeps), NextExpiration(wheels.View()), ticks)
      ensures InTime(parked, ticks, sleeps)
    {
      var entries;
      parked, entries := AdvanceWheel(ticks, mode);
      woken := FireEach(entries, Elapsed);
    }

    /** Fails every registered sleep. */
    method Shutdown() returns (woken: seq<Wakeup>)
      requires Valid()
      modifies this, wheels, wheels.repr
      ensures Valid() && IsExact() && View() == Step(old(View()), Sleeps.Shutdown)
      ensures WokenOnce(old(sleeps), sleeps, woken)
    {
      CloseHolds(wheels.View(), Map());
      ghost var m := Map();
      var entries := wheels.Shutdown();
      FireListedIsFailAll(m, sleeps, entries);
      woken := FireEach(entries, ShutDown);
    }
  }

  /** The timeout passes no deadline of a sleep that is registered. */
  predicate InTime(parked: ParkMode, ticks: nat, sleeps: map<nat, Sleep>) {
    forall id :: id in sleeps && sleeps[id].state == SleepState.Registered
      ==> parked.Timeout? && ticks + parked.millis <= sleeps[id].deadline
  }

  /** The sleeps that changed state and had kept a waker were woken by it, each once, and no
      others were. */
  ghost predicate WokenOnce(before: map<nat, Sleep>, after: map<nat, Sleep>, woken: seq<Wakeup>) {
    && before.Keys == after.Keys
    && (forall id: nat, k: nat :: Wakeup(id, k) in woken
          <==> id in before && before[id].waker == Some(k) && after[id].waker == None)
    && (forall i, j :: 0 <= i < j < |woken| ==> woken[i].id != woken[j].id)
  }

  predicate KeptOrTaken(before: map<nat, Sleep>, after: map<nat, Sleep>) {
    forall id :: id in before && id in after ==> after[id].waker == before[id].waker || after[id].waker == None
  }

  lemma TakenWhenFired(sleeps: map<nat, Sleep>, entries: seq<Entry>, completion: Completion)
    ensures KeptOrTaken(sleeps, FireListed(sleeps, entries, completion))
  {
  }

  lemma FireListedNext(sleeps: map<nat, Sleep>, entries: seq<Entry>, i: nat, completion: Completion)
    requires i < |entries| && forall e :: e in entries ==> e.id in sleeps
    ensures var before := FireListed(sleeps, entries[..i], completion);
            && entries[i].id in before
            && FireListed(sleeps, entries[..i + 1], completion)
               == before[entries[i].id := FireOne(before[entries[i].id], completion)]
  {
    var e := entries[i];
    assert entries[..i + 1] == entries[..i] + [e];
    assert e in entries[..i + 1];
  }

  lemma WokenNext(start: map<nat, Sleep>, before: map<nat, Sleep>, after: map<nat, Sleep>, id: nat,
                  completion: Completion, woken: seq<Wakeup>, w: seq<Wakeup>)
    requires WokenOnce(start, before, woken) && id in before && KeptOrTaken(start, before)
    requires after == before[id := FireOne(before[id], completion)]
    requires w == if before[id].waker.Some? then [Wakeup(id, before[id].waker.value)] else []
    ensures WokenOnce(start, after, woken + w)
  {
  }

  lemma RegisteredAreTimers(w: Wheel, sleeps: map<nat, Sleep>)
    requires Timers(w) == EntriesOf(Deadlines(sleeps))
    ensures forall id :: id in sleeps && sleeps[id].state == SleepState.Registered
              ==> Entry(id, sleeps[id].deadline) in Timers(w)
  {
    forall id | id in sleeps && sleeps[id].state == SleepState.Registered
      ensures Entry(id, sleeps[id].deadline) in Timers(w)
    {
      EntriesOfCount(Deadlines(sleeps), Entry(id, sleeps[id].deadline));
    }
  }

  lemma FireListedIsFailAll(m: TimerMap, sleeps: map<nat, Sleep>, entries: seq<Entry>)
    requires m.due == Deadlines(sleeps) && multiset(entries) == EntriesOf(m.due)
    ensures FireListed(sleeps, entries, ShutDown) == FailAll(sleeps)
    ensures forall e :: e in entries ==> e.id in sleeps
    ensures Deadlines(FailAll(sleeps)) == map[]
  {
    forall e ensures e in entries <==> e.id in m.due && m.due[e.id] == e.deadline {
      EntriesOfCount(m.due, e);
      assert e in entries <==> e in multiset(entries);
    }
    forall id | id in sleeps
      ensures (exists e :: e in entries && e.id == id) <==> id in m.due
    {
      if id in m.due {
        assert Entry(id, m.due[id]) in entries;
      }
    }
  }

  /** The sleeps after firing those of a list of timers. */
  function FireListed(sleeps: map<nat, Sleep>, entries: seq<Entry>, completion: Completion): map<nat, Sleep> {
    map id | id in sleeps ::
      if exists e :: e in entries && e.id == id then FireOne(sleeps[id], completion) else sleeps[id]
  }

  /** Firing the due sleeps is a tick of the map. */
  lemma FireDueIsTick(m: TimerMap, sleeps: map<nat, Sleep>, now: nat)
    requires m.due == Deadlines(sleeps)
    ensures MapStep(m, Tick(now)).0 == m.(now := now, due := Deadlines(FireDue(sleeps, now)))
  {
    var fires := map id | id in m.due && m.due[id] <= now :: m.due[id];
    assert m.due - fires.Keys == Deadlines(FireDue(sleeps, now));
  }

  lemma FiredAreDue(m: TimerMap, entries: seq<Entry>, now: nat, e: Entry)
    requires multiset(entries) == MapStep(m, Tick(now)).1.fired
    ensures e in entries <==> e.id in m.due && m.due[e.id] <= now && m.due[e.id] == e.deadline
  {
    EntriesOfCount(map id | id in m.due && m.due[id] <= now :: m.due[id], e);
    assert e in entries <==> e in multiset(entries);
  }

  /** The timer of a registered sleep is where removal looks for it. */
  lemma RegisteredIsFound(w: Wheel, m: TimerMap, e: Entry)
    requires Represents(w, m) && e.id in m.due && m.due[e.id] == e.deadline
    ensures e in w.slots[Place(w.elapsed, e.deadline)]
    ensures Represents(Remove(w, e), m.(due := m.due - {e.id}))
  {
    EntriesOfCount(m.due, e);
    assert e in Timers(w);
    FoundWherePlaced(w, e);
    CancelRefines(w, m, e);
  }

  /** The timers the map fires are those of the due sleeps. */
  lemma FireListedIsFireDue(m: TimerMap, sleeps: map<nat, Sleep>, entries: seq<Entry>, now: nat)
    requires m.due == Deadlines(sleeps)
    requires multiset(entries) == MapStep(m, Tick(now)).1.fired
    ensures FireListed(sleeps, entries, Elapsed) == FireDue(sleeps, now)
    ensures forall e :: e in entries ==> e.id in sleeps
  {
    forall e { FiredAreDue(m, entries, now, e); }
    forall id | id in sleeps
      ensures (exists e :: e in entries && e.id == id) <==> id in m.due && m.due[id] <= now
    {
      if id in m.due && m.due[id] <= now {
        assert Entry(id, m.due[id]) in entries;
      }
    }
  }

  /** Some sleep changes exactly if the wheel let a timer go. */
  lemma FiringChanges(m: TimerMap, sleeps: map<nat, Sleep>, entries: seq<Entry>, now: nat)
    requires m.due == Deadlines(sleeps)
    requires multiset(entries) == MapStep(m, Tick(now)).1.fired
    ensures entries != [] <==> FireDue(sleeps, now) != sleeps
  {
    if entries != [] {
      FiredAreDue(m, entries, now, entries[0]);
      assert entries[0] in entries;
      assert FireDue(sleeps, now)[entries[0].id] != sleeps[entries[0].id];
    } else {
      forall id | id in sleeps ensures FireDue(sleeps, now)[id] == sleeps[id] {
        FiredAreDue(m, entries, now, Entry(id, sleeps[id].deadline));
      }
    }
  }

  /** Once the due sleeps have fired, those registered are again the timers of the wheel. */
  lemma FiringHolds(w: Wheel, m: TimerMap, sleeps: map<nat, Sleep>, entries: seq<Entry>, now: nat)
    requires m.due == Deadlines(sleeps) && Represents(w, MapStep(m, Tick(now)).0)
    requires multiset(entries) == MapStep(m, Tick(now)).1.fired
    ensures forall e :: e in entries ==> e.id in sleeps
    ensures FireListed(sleeps, entries, Elapsed) == FireDue(sleeps, now)
    ensures entries != [] <==> FireDue(sleeps, now) != sleeps
    ensures Represents(w, TimerMap(now, m.closed, Deadlines(FireDue(sleeps, now))))
    ensures forall id :: id in sleeps && FireDue(sleeps, now)[id].state == SleepState.Registered
              ==> Entry(id, FireDue(sleeps, now)[id].deadline) in Timers(w)
  {
    FireListedIsFireDue(m, sleeps, entries, now);
    FireDueIsTick(m, sleeps, now);
    FiringChanges(m, sleeps, entries, now);
    RegisteredAreTimers(w, FireDue(sleeps, now));
  }
}
