/** The wheel stands in for a plain map from timers to deadlines. */
module WheelRefinement {
  import opened Wrappers
  import opened Ticks
  import opened WheelSpec
  import opened WheelPlacement
  import opened WheelAdvance

  // ----- one advance ----------------------------------------------------------------

  /** `fired` is the part of `all` due at `now`, and `left` is the rest. */
  ghost predicate SplitAt(all: multiset<Entry>, now: nat, fired: multiset<Entry>, left: multiset<Entry>) {
    forall e :: && fired[e] == (if e.deadline <= now then all[e] else 0)
                && left[e] == (if e.deadline <= now then 0 else all[e])
  }

  lemma SplitByTime(all: multiset<Entry>, now: nat, fired: multiset<Entry>, left: multiset<Entry>)
    requires left + fired == all
    requires forall e :: e in fired ==> e.deadline <= now
    requires forall e :: e in left ==> e.deadline > now
    ensures SplitAt(all, now, fired, left)
  {
    forall e
      ensures fired[e] == (if e.deadline <= now then all[e] else 0)
      ensures left[e] == (if e.deadline <= now then 0 else all[e])
    {
      assert (left + fired)[e] == all[e];
    }
  }

  /** `advance(now)` fires exactly the registered timers that are due, each as often
      as it is registered, and leaves the others registered. */
  lemma AdvanceIsExact(w: Wheel, now: nat)
    requires Exact(w) && w.elapsed <= now
    ensures Exact(Advance(w, now).wheel) && Advance(w, now).wheel.elapsed == now
    ensures SplitAt(Timers(w), now, multiset(Advance(w, now).fired), Timers(Advance(w, now).wheel))
  {
    AdvanceKeeps(w, now, true);
    var r := Advance(w, now);
    forall e | e in Timers(r.wheel) ensures e.deadline > now {
      AllAhead(r.wheel, e);
    }
    SplitByTime(Timers(w), now, multiset(r.fired), Timers(r.wheel));
  }

  lemma SplitsCompose(all: multiset<Entry>, mid: nat, now: nat,
                      f1: multiset<Entry>, l1: multiset<Entry>, f2: multiset<Entry>, l2: multiset<Entry>,
                      f: multiset<Entry>, l: multiset<Entry>)
    requires mid <= now
    requires SplitAt(all, mid, f1, l1) && SplitAt(l1, now, f2, l2) && SplitAt(all, now, f, l)
    ensures f1 + f2 == f && l2 == l
  {
  }

  /** Advancing in two steps fires in total what advancing in one would. */
  lemma AdvanceComposes(w: Wheel, mid: nat, now: nat)
    requires Exact(w) && w.elapsed <= mid <= now
    ensures var first := Advance(w, mid);
            var second := Advance(first.wheel, now);
            && multiset(first.fired) + multiset(second.fired) == multiset(Advance(w, now).fired)
            && Timers(second.wheel) == Timers(Advance(w, now).wheel)
  {
    var first := Advance(w, mid);
    AdvanceIsExact(w, mid);
    AdvanceIsExact(first.wheel, now);
    AdvanceIsExact(w, now);
    var second, once := Advance(first.wheel, now), Advance(w, now);
    SplitsCompose(Timers(w), mid, now, multiset(first.fired), Timers(first.wheel),
                  multiset(second.fired), Timers(second.wheel), multiset(once.fired), Timers(once.wheel));
  }

  lemma NoTimersHeld(w: Wheel)
    ensures NoTimers(w) <==> Timers(w) == multiset{}
  {
    if NoTimers(w) && Timers(w) != multiset{} {
      var e :| e in Timers(w);
      HeldIffInSlot(w.slots, e);
    }
    if i :| 0 <= i < CELLS && w.slots[i] != [] {
      HeldIffInSlot(w.slots, w.slots[i][0]);
      assert w.slots[i][0] in Timers(w);
    }
  }

  /** What `advance` returns is later than the time it was given and not later than
      any remaining deadline; it returns nothing exactly when nothing remains. */
  lemma AdvanceReturnsBound(w: Wheel, now: nat)
    requires Exact(w) && w.elapsed <= now
    ensures var r := Advance(w, now);
            && (r.next.None? <==> Timers(r.wheel) == multiset{})
            && (r.next.Some? ==> r.next.value.deadline > now)
            && (r.next.Some? ==> forall e :: e in Timers(r.wheel) ==> r.next.value.deadline <= e.deadline)
  {
    var r := Advance(w, now);
    AdvanceKeeps(w, now, true);
    ReturnedExpirationIsFresh(w, now);
    LowestLevelFirst(r.wheel);
    NoTimersHeld(r.wheel);
    forall e | r.next.Some? && e in Timers(r.wheel) ensures r.next.value.deadline <= e.deadline {
      HeldIffInSlot(r.wheel.slots, e);
      var i :| 0 <= i < CELLS && e in r.wheel.slots[i];
      EarliestBeforeDeadline(r.wheel, true, i, e);
    }
  }

  /** Shutting down fails every timer once and empties the wheel. */
  lemma {:induction false} DrainTakesAll(w: Wheel, failed: seq<Entry>)
    ensures multiset(Drain(w, failed).1) == multiset(failed) + Timers(w)
    ensures NoTimers(Drain(w, failed).0)
    ensures Drain(w, failed).0 == w.(slots := Drain(w, failed).0.slots)
    decreases |Timers(w)|
  {
    LowestLevelFirst(w);
    NoTimersHeld(w);
    if NextExpiration(w).Some? {
      var x := NextExpiration(w).value;
      EmptyShrinks(w, x);
      DrainTakesAll(EmptySlot(w, x), failed + At(w, x));
    }
  }

  // ----- the park timeout -----------------------------------------------------------

  datatype ParkMode = NoPark | NextCompletion | Timeout(millis: nat)

  /** The mode the timer driver hands on after advancing to `ticks`. */
  function ParkAfter(mode: ParkMode, fired: nat, next: Option<Expiration>, ticks: nat): ParkMode {
    var woken := if fired > 0 then NoPark else mode;
    if next.None? then woken
    else
      var delta := if next.value.deadline >= ticks then next.value.deadline - ticks else 0;
      if woken.Timeout? then Timeout(if woken.millis <= delta then woken.millis else delta)
      else Timeout(delta)
  }

  /** While timers remain the driver parks with a timeout that passes no deadline: up to the next
      slot that is due, or shorter if nothing fired and it was asked to. Without timers the mode is
      the one it was asked for, or not to park when timers fired. */
  lemma ParkPassesNoDeadline(w: Wheel, mode: ParkMode, ticks: nat)
    requires Exact(w) && w.elapsed <= ticks
    ensures var r := Advance(w, ticks);
            var parked := ParkAfter(mode, |r.fired|, r.next, ticks);
            && (forall e :: e in Timers(r.wheel) ==> parked.Timeout? && ticks + parked.millis <= e.deadline)
            && ParksUntil(parked, mode, r.fired != [], NextExpiration(r.wheel), ticks)
            && (Timers(r.wheel) == multiset{} <==> NextExpiration(r.wheel).None?)
  {
    AdvanceReturnsBound(w, ticks);
    ReturnedExpirationIsFresh(w, ticks);
  }

  /** The mode to park in, given the slot that is due next, if any. */
  predicate ParksUntil(parked: ParkMode, mode: ParkMode, fired: bool, next: Option<Expiration>, ticks: nat) {
    match next
    case None => parked == if fired then NoPark else mode
    case Some(x) =>
      && x.deadline > ticks && parked.Timeout?
      && (ticks + parked.millis == x.deadline || (!fired && parked == mode))
      && ticks + parked.millis <= x.deadline
      && (!fired && mode.Timeout? ==> parked.millis <= mode.millis)
  }

  // ----- runs -----------------------------------------------------------------------

  datatype Op =
    | Start(id: nat, nanos: nat)
    | Cancel(timer: Entry)
    | Tick(now: nat)
    | Close

  datatype Output =
    | Started(outcome: Outcome)
    | Cancelled
    | Ticked(fired: multiset<Entry>)
    | Closed(failed: multiset<Entry>)

  datatype TimerMap = TimerMap(now: nat, closed: bool, due: map<nat, nat>)

  function EntriesOf(due: map<nat, nat>): multiset<Entry> {
    multiset(set id | id in due :: Entry(id, due[id]))
  }

  lemma EntriesOfCount(due: map<nat, nat>, e: Entry)
    ensures EntriesOf(due)[e] == if e.id in due && due[e.id] == e.deadline then 1 else 0
  {
    if e.id in due && due[e.id] == e.deadline {
      assert e == Entry(e.id, due[e.id]);
    }
  }

  function WheelStep(w: Wheel, op: Op): (Wheel, Output) {
    match op
    case Start(id, nanos) => var r := Add(w, id, nanos); (r.0, Started(r.1))
    case Cancel(timer) => (Remove(w, timer), Cancelled)
    case Tick(now) => var r := Advance(w, now); (r.wheel, Ticked(multiset(r.fired)))
    case Close => var r := Shutdown(w); (r.0, Closed(multiset(r.1)))
  }

  function MapStep(m: TimerMap, op: Op): (TimerMap, Output) {
    match op
    case Start(id, nanos) =>
      var deadline := Expiry(m.now, nanos);
      if nanos == 0 then (m, Started(Fired))
      else if m.closed then (m, Started(Refused))
      else if deadline == m.now then (m, Started(Fired))
      else (m.(due := m.due[id := deadline]), Started(Registered))
    case Cancel(timer) => (m.(due := m.due - {timer.id}), Cancelled)
    case Tick(now) =>
      var fires := map id | id in m.due && m.due[id] <= now :: m.due[id];
      (m.(now := now, due := m.due - fires.Keys), Ticked(EntriesOf(fires)))
    case Close => (m.(closed := true, due := map[]), Closed(EntriesOf(m.due)))
  }

  /** What a caller may ask for: fresh timers less than a rotation of the top level
      ahead, cancelling registered timers, and time that does not go back. */
  predicate Allowed(m: TimerMap, op: Op) {
    match op
    case Start(id, nanos) => id !in m.due && InHorizon(m.now, Expiry(m.now, nanos))
    case Cancel(timer) => timer.id in m.due && m.due[timer.id] == timer.deadline
    case Tick(now) => m.now <= now
    case Close => true
  }

  /** The wheel holds the timers of the map, be they in the horizon or not. */
  ghost predicate Holds(w: Wheel, m: TimerMap) {
    Sound(w) && w.elapsed == m.now && w.closed == m.closed && Timers(w) == EntriesOf(m.due)
  }

  ghost predicate Represents(w: Wheel, m: TimerMap) {
    && Exact(w) && w.elapsed == m.now && w.closed == m.closed
    && Timers(w) == EntriesOf(m.due)
  }

  lemma ExactlyHolds(w: Wheel, m: TimerMap)
    ensures Represents(w, m) <==> Holds(w, m) && Exact(w)
  {
  }

  /** Starting a timer of any length is answered as by the map; one in the horizon leaves an
      exact wheel exact. */
  lemma StartHolds(w: Wheel, m: TimerMap, id: nat, nanos: nat)
    requires Holds(w, m) && id !in m.due
    ensures WheelStep(w, Start(id, nanos)).1 == MapStep(m, Start(id, nanos)).1
    ensures Holds(WheelStep(w, Start(id, nanos)).0, MapStep(m, Start(id, nanos)).0)
    ensures Exact(w) && InHorizon(m.now, Expiry(m.now, nanos)) ==> Exact(WheelStep(w, Start(id, nanos)).0)
  {
    var e := Entry(id, Expiry(m.now, nanos));
    if nanos > 0 && !w.closed && e.deadline > w.elapsed {
      InsertKeeps(w, e, false);
      if Exact(w) && InHorizon(m.now, e.deadline) {
        InsertKeeps(w, e, true);
      }
      var due := m.due[id := e.deadline];
      forall f ensures Timers(Insert(w, e).0)[f] == EntriesOf(due)[f] {
        EntriesOfCount(due, f);
        EntriesOfCount(m.due, f);
      }
    }
  }

  lemma StartRefines(w: Wheel, m: TimerMap, id: nat, nanos: nat)
    requires Represents(w, m) && Allowed(m, Start(id, nanos))
    ensures WheelStep(w, Start(id, nanos)).1 == MapStep(m, Start(id, nanos)).1
    ensures Represents(WheelStep(w, Start(id, nanos)).0, MapStep(m, Start(id, nanos)).0)
  {
    ExactlyHolds(w, m);
    StartHolds(w, m, id, nanos);
    ExactlyHolds(WheelStep(w, Start(id, nanos)).0, MapStep(m, Start(id, nanos)).0);
  }

  lemma CancelRefines(w: Wheel, m: TimerMap, e: Entry)
    requires Represents(w, m) && Allowed(m, Cancel(e))
    ensures WheelStep(w, Cancel(e)).1 == MapStep(m, Cancel(e)).1
    ensures Represents(WheelStep(w, Cancel(e)).0, MapStep(m, Cancel(e)).0)
  {
    EntriesOfCount(m.due, e);
    RemoveKeeps(w, e);
    NoTimersHeld(w);
    var due := m.due - {e.id};
    forall f ensures Timers(Remove(w, e))[f] == EntriesOf(due)[f] {
      EntriesOfCount(due, f);
      EntriesOfCount(m.due, f);
    }
  }

  lemma MapSplits(m: TimerMap, now: nat)
    ensures var (m', out) := MapStep(m, Tick(now));
            SplitAt(EntriesOf(m.due), now, out.fired, EntriesOf(m'.due))
  {
    var m' := MapStep(m, Tick(now)).0;
    var fires := map id | id in m.due && m.due[id] <= now :: m.due[id];
    forall e
      ensures EntriesOf(fires)[e] == (if e.deadline <= now then EntriesOf(m.due)[e] else 0)
      ensures EntriesOf(m'.due)[e] == (if e.deadline <= now then 0 else EntriesOf(m.due)[e])
    {
      EntriesOfCount(m.due, e);
      EntriesOfCount(fires, e);
      EntriesOfCount(m'.due, e);
    }
  }

  lemma SplitIsUnique(all: multiset<Entry>, now: nat,
                      f: multiset<Entry>, l: multiset<Entry>, f': multiset<Entry>, l': multiset<Entry>)
    requires SplitAt(all, now, f, l) && SplitAt(all, now, f', l')
    ensures f == f' && l == l'
  {
  }

  lemma TickRefines(w: Wheel, m: TimerMap, now: nat)
    requires Represents(w, m) && Allowed(m, Tick(now))
    ensures WheelStep(w, Tick(now)).1 == MapStep(m, Tick(now)).1
    ensures Represents(WheelStep(w, Tick(now)).0, MapStep(m, Tick(now)).0)
  {
    AdvanceIsExact(w, now);
    AdvanceKeeps(w, now, true);
    MapSplits(m, now);
    var r, step := Advance(w, now), MapStep(m, Tick(now));
    SplitIsUnique(Timers(w), now, multiset(r.fired), Timers(r.wheel), step.1.fired, EntriesOf(step.0.due));
  }

  /** Shutting down fails the timers of the map, whatever their length. */
  lemma CloseHolds(w: Wheel, m: TimerMap)
    requires Holds(w, m)
    ensures WheelStep(w, Close).1 == MapStep(m, Close).1
    ensures Represents(WheelStep(w, Close).0, MapStep(m, Close).0)
  {
    DrainTakesAll(w.(closed := true), []);
    NoTimersHeld(Shutdown(w).0);
  }

  lemma CloseRefines(w: Wheel, m: TimerMap)
    requires Represents(w, m)
    ensures WheelStep(w, Close).1 == MapStep(m, Close).1
    ensures Represents(WheelStep(w, Close).0, MapStep(m, Close).0)
  {
    ExactlyHolds(w, m);
    CloseHolds(w, m);
  }

  lemma StepRefines(w: Wheel, m: TimerMap, op: Op)
    requires Represents(w, m) && Allowed(m, op)
    ensures WheelStep(w, op).1 == MapStep(m, op).1
    ensures Represents(WheelStep(w, op).0, MapStep(m, op).0)
  {
    match op
    case Start(id, nanos) => StartRefines(w, m, id, nanos);
    case Cancel(timer) => CancelRefines(w, m, timer);
    case Tick(now) => TickRefines(w, m, now);
    case Close => CloseRefines(w, m);
  }

  function RunWheel(w: Wheel, ops: seq<Op>): (Wheel, seq<Output>)
    decreases |ops|
  {
    if ops == [] then (w, [])
    else
      var step := WheelStep(w, ops[0]);
      var rest := RunWheel(step.0, ops[1..]);
      (rest.0, [step.1] + rest.1)
  }

  function RunMap(m: TimerMap, ops: seq<Op>): (TimerMap, seq<Output>)
    decreases |ops|
  {
    if ops == [] then (m, [])
    else
      var step := MapStep(m, ops[0]);
      var rest := RunMap(step.0, ops[1..]);
      (rest.0, [step.1] + rest.1)
  }

  predicate AllowedRun(m: TimerMap, ops: seq<Op>)
    decreases |ops|
  {
    ops == [] || (Allowed(m, ops[0]) && AllowedRun(MapStep(m, ops[0]).0, ops[1..]))
  }

  /** Over every run of starting, cancelling, advancing and shutting down, the wheel
      answers exactly as the plain map does, and ends up representing it. */
  lemma {:induction false} RunRefines(w: Wheel, m: TimerMap, ops: seq<Op>)
    requires Represents(w, m) && AllowedRun(m, ops)
    ensures RunWheel(w, ops).1 == RunMap(m, ops).1
    ensures Represents(RunWheel(w, ops).0, RunMap(m, ops).0)
    decreases |ops|
  {
    if ops != [] {
      StepRefines(w, m, ops[0]);
      RunRefines(WheelStep(w, ops[0]).0, MapStep(m, ops[0]).0, ops[1..]);
    }
  }

  /** The same from a new wheel: a plain map is what the program implements. */
  lemma NewWheelIsAMap(ops: seq<Op>)
    requires AllowedRun(TimerMap(0, false, map[]), ops)
    ensures RunWheel(EmptyWheel, ops).1 == RunMap(TimerMap(0, false, map[]), ops).1
  {
    NoTimersHeld(EmptyWheel);
    RunRefines(EmptyWheel, TimerMap(0, false, map[]), ops);
  }

  /** A duration of at most 63 slots of the top level is always allowed. */
  lemma ShortDurationsAreAllowed(elapsed: nat, nanos: nat)
    requires nanos / NANOS_PER_MILLI <= 63 * 0x4000_0000
    ensures InHorizon(elapsed, Expiry(elapsed, nanos))
  {
    var millis := nanos / NANOS_PER_MILLI;
    assert SlotRange(5) == 64 * SlotRange(4) == 4096 * SlotRange(3) == 0x4_0000 * SlotRange(2)
        == 0x100_0000 * SlotRange(1) == 0x4000_0000;
    BlockIsQuotient(5, elapsed);
    BlockIsQuotient(5, elapsed + millis);
  }

  // ----- lengths in nanoseconds -----------------------------------------------------

  /** A timer of `d` milliseconds and a rest is due `d` milliseconds from now, cut to 64 bits. */
  lemma WholeMillisCount(w: Wheel, id: nat, d: nat, r: nat)
    requires r < 1_000_000 && d * 1_000_000 + r > 0
    ensures Add(w, id, d * 1_000_000 + r) == Insert(w, Entry(id, w.elapsed + d % 0x1_0000_0000_0000_0000))
    ensures d < 0x1_0000_0000_0000_0000 ==> Add(w, id, d * 1_000_000 + r) == Insert(w, Entry(id, w.elapsed + d))
  {
    assert (d * 1_000_000 + r) / 1_000_000 == d;
  }

  /** A timer of `d` milliseconds and a rest, in the horizon of an open wheel, fires at once if
      it is shorter than a millisecond; otherwise it is registered, and an advance fires it if and
      only if it is given a time at least `d` from then. */
  lemma TimerFiresWhenDue(w: Wheel, id: nat, d: nat, r: nat, now: nat)
    requires Exact(w) && !w.closed && r < 1_000_000 && d * 1_000_000 + r > 0 && d < 0x1_0000_0000_0000_0000
    requires InHorizon(w.elapsed, w.elapsed + d) && w.elapsed <= now
    ensures var (w', outcome) := Add(w, id, d * 1_000_000 + r); var e := Entry(id, w.elapsed + d);
            if d == 0 then w' == w && outcome == Fired
            else
              && Exact(w') && outcome == Registered && Timers(w')[e] == Timers(w)[e] + 1
              && (e in multiset(Advance(w', now).fired) <==> now >= w.elapsed + d)
              && (e in Timers(Advance(w', now).wheel) <==> now < w.elapsed + d)
  {
    WholeMillisCount(w, id, d, r);
    if d > 0 {
      var e := Entry(id, w.elapsed + d);
      InsertKeeps(w, e, true);
      AdvanceIsExact(Insert(w, e).0, now);
    }
  }
}
