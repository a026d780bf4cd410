/** Waking a reactor that sleeps on its ring from other threads: two bits, an eventfd, and one
    read of the eventfd in flight. The reactor and any number of wakers interleave atomically. */
module Unparking {

  /** Where the reactor stands. */
  datatype Reactor =
    | Running
    | Pushing(woken: bool)  // the park bit is set, the read is about to be pushed
    | Blocked               // waiting for a completion

  datatype Park = Park(
    parked: bool,      // the park bit
    remote: bool,      // the remote bit
    reactor: Reactor,
    pending: nat,      // eventfd reads in flight
    posted: nat,       // completions of such reads, not reaped yet
    counter: nat,      // the value of the eventfd
    writers: nat)      // wakers that are to write to the eventfd

  const NewPark := Park(false, false, Running, 0, 0, 0, 0)

  datatype Op =
    | SetPark    // the reactor is about to wait: it sets the park bit
    | PushRead   // and has the eventfd read, unless a read is in flight
    | Return     // a wait ends: a completion, a timeout or an interrupt
    | Reap       // the reactor reaps the completion of the read, and resets both bits
    | SetRemote  // a waker sets the remote bit
    | Write      // and writes to the eventfd, if it is the one to do so
    | Complete   // the kernel completes the read

  predicate Enabled(p: Park, op: Op) {
    match op
    case SetPark => p.reactor == Running
    case PushRead => p.reactor.Pushing?
    case Return => p.reactor == Blocked
    case Reap => p.reactor == Running && p.posted > 0
    case SetRemote => true
    case Write => p.writers > 0
    case Complete => p.pending > 0 && p.counter > 0
  }

  /** After the park bit the reactor blocks, unless it was woken before. */
  function AfterPark(woken: bool): Reactor {
    if woken then Running else Blocked
  }

  function Step(p: Park, op: Op): Park
    requires Enabled(p, op)
  {
    match op
    case SetPark =>
      p.(parked := true, reactor := if p.parked then AfterPark(p.remote) else Pushing(p.remote))
    case PushRead => p.(pending := p.pending + 1, reactor := AfterPark(p.reactor.woken))
    case Return => p.(reactor := Running)
    case Reap => p.(posted := p.posted - 1, parked := false, remote := false)
    case SetRemote => p.(remote := true, writers := p.writers + if !p.remote && p.parked then 1 else 0)
    case Write => p.(writers := p.writers - 1, counter := p.counter + 1)
    case Complete => p.(pending := p.pending - 1, posted := p.posted + 1, counter := 0)
  }

  /** The park bit stands for one read: about to be pushed, in flight, or completed. A reactor
      that waits, or is about to, is going to hear of a wake. A wake is written at most once,
      and only while both bits are set. */
  predicate Inv(p: Park) {
    && p.pending + p.posted + (if p.reactor.Pushing? then 1 else 0) == (if p.parked then 1 else 0)
    && (p.reactor == Blocked || p.reactor == Pushing(false) ==> p.parked && (p.remote ==> Heard(p)))
    && p.writers + p.counter + p.posted <= (if p.parked && p.remote then 1 else 0)
  }

  /** A wake is on its way: to be written, written, or completed. */
  predicate Heard(p: Park) {
    p.writers > 0 || p.counter > 0 || p.posted > 0
  }

  predicate Allowed(p: Park, ops: seq<Op>)
    decreases |ops|
  {
    ops == [] || (Enabled(p, ops[0]) && Allowed(Step(p, ops[0]), ops[1..]))
  }

  function Run(p: Park, ops: seq<Op>): Park
    requires Allowed(p, ops)
    decreases |ops|
  {
    if ops == [] then p else Run(Step(p, ops[0]), ops[1..])
  }

  lemma {:induction false} RunKeeps(p: Park, ops: seq<Op>)
    requires Inv(p) && Allowed(p, ops)
    ensures Inv(Run(p, ops))
    decreases |ops|
  {
    if ops == [] {
    } else {
      RunKeeps(Step(p, ops[0]), ops[1..]);
    }
  }

  /** In every run at most one read of the eventfd is in flight, and a reactor that waits
      with the remote bit set has a write, a counter or a completion to wake it. */
  lemma WokenReactorHears(ops: seq<Op>)
    requires Allowed(NewPark, ops)
    ensures var p := Run(NewPark, ops);
            p.pending + p.posted <= 1 && (p.reactor == Blocked && p.remote ==> Heard(p))
  {
    RunKeeps(NewPark, ops);
  }

  /** What is left to do, by the waker and the kernel, until the completion is posted. */
  function Wakeup(p: Park): seq<Op> {
    if p.posted > 0 then [] else if p.counter > 0 then [Complete] else [Write, Complete]
  }

  /** A reactor that waits and was woken is woken up, whatever it does not do itself: the
      write and the read that are under way complete. */
  lemma WokenReactorWakesUp(p: Park)
    requires Inv(p) && p.reactor == Blocked && p.remote
    ensures Allowed(p, Wakeup(p)) && Run(p, Wakeup(p)).posted > 0
  {
    if p.posted == 0 && p.counter == 0 {
      var q := Step(p, Write);
      assert Allowed(Step(q, Complete), []);
      assert [Write, Complete][1..] == [Complete];
      assert Allowed(q, [Complete]);
      assert Run(q, [Complete]) == Run(Step(q, Complete), []);
    } else if p.posted == 0 {
      assert Allowed(Step(p, Complete), []);
    }
  }

  /** A wake found the park bit clear: the remote bit is set, nobody is going to write, and
      every wait to come finds the bit set before it. */
  predicate Sleepless(p: Park) {
    p.remote && p.writers == 0 && p.counter == 0 && p.posted == 0 && p.reactor != Blocked
    && p.reactor != Pushing(false)
  }

  lemma {:induction false} SleeplessForever(p: Park, ops: seq<Op>)
    requires Sleepless(p) && Allowed(p, ops)
    ensures Sleepless(Run(p, ops))
    decreases |ops|
  {
    if ops == [] {
    } else {
      SleeplessForever(Step(p, ops[0]), ops[1..]);
    }
  }

  /** A step towards a wait. */
  function Toward(p: Park): Op {
    match p.reactor
    case Blocked => Return
    case Pushing(_) => PushRead
    case Running =>
      if !p.remote || !p.parked then SetPark
      else if p.posted > 0 then Reap
      else if p.counter > 0 then Complete
      else Write
  }

  function Distance(p: Park): nat {
    match p.reactor
    case Blocked => 0
    case Pushing(woken) => if woken then 6 else 1
    case Running =>
      if !p.remote then (if p.parked then 1 else 2)
      else if !p.parked then 7
      else if p.posted > 0 then 3
      else if p.counter > 0 then 4
      else 5
  }

  lemma TowardLeadsOn(p: Park)
    requires Inv(p) && !Sleepless(p) && p.reactor != Blocked
    ensures Enabled(p, Toward(p)) && Distance(Step(p, Toward(p))) < Distance(p)
    ensures Inv(Step(p, Toward(p))) && !Sleepless(Step(p, Toward(p)))
  {
  }

  lemma {:induction false} CanSleep(p: Park) returns (ops: seq<Op>)
    requires Inv(p) && !Sleepless(p)
    ensures Allowed(p, ops) && Run(p, ops).reactor == Blocked
    decreases Distance(p)
  {
    if p.reactor == Blocked {
      ops := [];
    } else {
      TowardLeadsOn(p);
      var rest := CanSleep(Step(p, Toward(p)));
      ops := [Toward(p)] + rest;
      assert ops[1..] == rest;
    }
  }

  predicate NeverWaits(p: Park, ops: seq<Op>) {
    Allowed(p, ops) ==> Run(p, ops).reactor != Blocked
  }

  /** The reactor can come to wait again exactly if it is not sleepless. */
  lemma SleeplessExactly(p: Park)
    requires Inv(p)
    ensures Sleepless(p) <==> forall ops :: NeverWaits(p, ops)
  {
    if Sleepless(p) {
      forall ops ensures NeverWaits(p, ops) {
        if Allowed(p, ops) {
          SleeplessForever(p, ops);
        }
      }
    } else {
      var ops := CanSleep(p);
      assert !NeverWaits(p, ops);
    }
  }

  /** The guard of a wake decides: in every run, a wake leaves a reactor that could wait unable
      ever to wait again if and only if it finds the park bit clear. */
  lemma UnparkedWakeTraps(ops: seq<Op>)
    requires Allowed(NewPark, ops) && !Sleepless(Run(NewPark, ops))
    ensures var p := Run(NewPark, ops);
            && (Sleepless(Step(p, SetRemote)) <==> !p.parked)
            && ((forall more :: NeverWaits(Step(p, SetRemote), more)) <==> !p.parked)
  {
    RunKeeps(NewPark, ops);
    var w := Step(Run(NewPark, ops), SetRemote);
    SleeplessExactly(w);
  }

  /** It happens before the first park. */
  lemma EarlyWakeNeverSleeps(ops: seq<Op>)
    requires Allowed(Step(NewPark, SetRemote), ops)
    ensures Run(Step(NewPark, SetRemote), ops).reactor != Blocked
  {
    SleeplessForever(Step(NewPark, SetRemote), ops);
  }

  /** A wait, a wake that ends it, and the completion reaped. */
  const WAIT_AND_WAKE := [SetPark, PushRead, SetRemote, Write, Complete, Return, Reap]

  /** It happens as well after any number of waits: the next wake comes before the next park. */
  lemma LaterWakeNeverSleeps(ops: seq<Op>)
    requires Allowed(Step(NewPark, SetRemote), ops)
    ensures Allowed(NewPark, WAIT_AND_WAKE) && Run(NewPark, WAIT_AND_WAKE) == NewPark
    ensures Run(Step(Run(NewPark, WAIT_AND_WAKE), SetRemote), ops).reactor != Blocked
  {
    var p1 := Step(Step(NewPark, SetPark), PushRead);
    var p2 := Step(Step(p1, SetRemote), Write);
    var p3 := Step(Step(p2, Complete), Return);
    RunOfTwo(NewPark, SetPark, PushRead, WAIT_AND_WAKE[2..]);
    RunOfTwo(p1, SetRemote, Write, WAIT_AND_WAKE[4..]);
    RunOfTwo(p2, Complete, Return, [Reap]);
    assert Allowed(Step(p3, Reap), []);
    assert WAIT_AND_WAKE == [SetPark, PushRead] + WAIT_AND_WAKE[2..];
    assert WAIT_AND_WAKE[2..] == [SetRemote, Write] + WAIT_AND_WAKE[4..];
    assert WAIT_AND_WAKE[4..] == [Complete, Return] + [Reap];
    assert Run(p3, [Reap]) == Run(Step(p3, Reap), []);
    EarlyWakeNeverSleeps(ops);
  }

  lemma RunOfTwo(p: Park, a: Op, b: Op, rest: seq<Op>)
    requires Enabled(p, a) && Enabled(Step(p, a), b)
    ensures Allowed(p, [a, b] + rest) <==> Allowed(Step(Step(p, a), b), rest)
    ensures Allowed(p, [a, b] + rest) ==> Run(p, [a, b] + rest) == Run(Step(Step(p, a), b), rest)
  {
    assert ([a, b] + rest)[1..] == [b] + rest;
    assert ([b] + rest)[1..] == rest;
    assert Allowed(p, [a, b] + rest) <==> Allowed(Step(p, a), [b] + rest);
  }

  // ----- the bits as the source keeps them ------------------------------------------

  const REACTOR_PARK_BIT: bv8 := 1
  const REMOTE_THREAD_BIT: bv8 := 2

  predicate Woken(state: bv8) {
    state & REMOTE_THREAD_BIT == REMOTE_THREAD_BIT
  }

  predicate IsParked(state: bv8) {
    state & REACTOR_PARK_BIT == REACTOR_PARK_BIT
  }

  class Unparker {
    var flag: bv8
    var eventfd: nat
    ghost var park: Park

    ghost predicate Valid()
      reads this
    {
      && Inv(park) && park.parked == IsParked(flag) && park.remote == Woken(flag) && park.counter == eventfd
    }

    constructor ()
      ensures Valid() && park == NewPark
    {
      flag, eventfd, park := 0, 0, NewPark;
    }

    /** The reactor sets its bit, and is told the bits before. */
    method SetParked() returns (state: bv8)
      requires Valid() && park.reactor == Running
      modifies this
      ensures Valid() && Enabled(old(park), SetPark) && park == Step(old(park), SetPark)
      ensures IsParked(state) == old(park).parked && Woken(state) == old(park).remote
    {
      state := flag;
      flag := flag | REACTOR_PARK_BIT;
      park := Step(park, SetPark);
    }

    method Reset()
      requires Valid() && park.reactor == Running && park.posted > 0
      modifies this
      ensures Valid() && Enabled(old(park), Reap) && park == Step(old(park), Reap)
    {
      flag := flag & !REACTOR_PARK_BIT & !REMOTE_THREAD_BIT;
      park := Step(park, Reap);
    }

    /** A waker sets its bit, and is told whether to write to the eventfd. */
    method SetWoken() returns (write: bool)
      requires Valid()
      modifies this
      ensures Valid() && park == Step(old(park), SetRemote)
      ensures write == (park.writers == old(park).writers + 1)
    {
      var state := flag;
      flag := flag | REMOTE_THREAD_BIT;
      write := !Woken(state) && IsParked(state);
      park := Step(park, SetRemote);
    }

    method WriteEvent()
      requires Valid() && park.writers > 0
      modifies this
      ensures Valid() && Enabled(old(park), Write) && park == Step(old(park), Write)
    {
      eventfd := eventfd + 1;
      park := Step(park, Write);
    }

    /** Wakes the reactor, here without any step of others in between. */
    method Wake()
      requires Valid()
      modifies this
      ensures Valid()
      ensures var after := Step(old(park), SetRemote);
              park == if !old(park).remote && old(park).parked then Step(after, Write) else after
    {
      var write := SetWoken();
      if write {
        WriteEvent();
      }
    }

    /** Prepares the ring for waiting, the read pushed with success. Returns whether the
        reactor may block. */
    method PreparePark() returns (ready: bool)
      requires Valid() && park.reactor == Running
      modifies this
      ensures Valid() && Enabled(old(park), SetPark)
      ensures var after := Step(old(park), SetPark);
              park == if after.reactor.Pushing? then Step(after, PushRead) else after
      ensures ready == (park.reactor == Blocked) && ready == !old(park).remote
      ensures park.pending + park.posted == 1
    {
      var state := SetParked();
      if !IsParked(state) {
        park := Step(park, PushRead);
      }
      ready := !Woken(state);
    }
  }
}
