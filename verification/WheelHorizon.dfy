/** How far ahead a timer may be: exactly when the wheel is still a map.

    Nothing in the program rejects a timer more than a rotation of the top level
    ahead.  Its slot is then the slot of some nearer time, and once that slot is
    the current one the search stops there and no longer sees the timers behind
    it.  `HorizonIsExact` shows that the guard `InHorizon` is both enough and
    needed: past it there is always a run in which a due timer does not fire. */
module WheelHorizon {
  import opened Wrappers
  import opened Ticks
  import opened WheelSpec
  import opened WheelPlacement
  import opened WheelAdvance
  import opened WheelRefinement

  /** Every further allowed run gets the answers the plain map gives. */
  ghost predicate Faithful(w: Wheel, m: TimerMap) {
    forall ops :: AllowedRun(m, ops) ==> RunWheel(w, ops).1 == RunMap(m, ops).1
  }

  function TopSlot(b: nat): (i: nat)
    ensures TOP <= i < CELLS
  {
    Index(5, b % SLOTS)
  }

  /** In a sound wheel the lower levels hold timers of the current top-level block only. */
  lemma LowTimersAreNear(w: Wheel, e: Entry, i: nat)
    requires Sound(w) && i < TOP && e in w.slots[i]
    ensures SameBlock(5, w.elapsed, e.deadline)
  {
    assert Placed(w.elapsed, e, i, false);
    var level := i / SLOTS;
    assert SameBlock(level + 1, w.elapsed, e.deadline);
    SameBlockAbove(level + 1, 5, w.elapsed, e.deadline);
  }

  lemma FarTimersAreOnTop(w: Wheel, e: Entry, i: nat)
    requires Sound(w) && i < CELLS && e in w.slots[i]
    requires !SameBlock(5, w.elapsed, e.deadline)
    ensures i == TopSlot(Block(5, e.deadline))
  {
    assert Placed(w.elapsed, e, i, false);
    SlotIsBlockDigit(e.deadline, 5);
    if i < TOP {
      LowTimersAreNear(w, e, i);
    }
  }

  /** The current slot of the top level, when occupied, ends the search: what it
      reports is a whole rotation ahead. */
  lemma CurrentSlotHidesOthers(w: Wheel)
    requires w.slots[TopSlot(Block(5, w.elapsed))] != []
    requires NextExpiration(w).Some? && NextExpiration(w).value.level == 5
    ensures NextExpiration(w).value.deadline == BlockStart(5, Block(5, w.elapsed) + 64)
  {
    LowestLevelFirst(w);
    BlockIsQuotient(5, w.elapsed);
    var n := Block(5, w.elapsed);
    assert Around(w.slots, 5, n)[0] != [];
    assert FirstOccupied(w.slots, 5, n) == Some(n % SLOTS);
    SlotDeadlineIsBlockStart(w.elapsed, 5, 64);
    assert (n + 64) % SLOTS == n % SLOTS;
  }

  /** A sweep in block `b` of the top level, with a timer in the slot of block `b`
      and a timer `hidden` in the slot of the next one. */
  ghost predicate Stuck(s: Sweep, now: nat, b: nat, hidden: Entry) {
    && SweepOk(s, now, false)
    && Block(5, s.wheel.elapsed) == b && Block(5, now) == b + 1 && hidden.deadline == now
    && s.wheel.slots[TopSlot(b)] != []
    && hidden in s.wheel.slots[TopSlot(b + 1)]
    && hidden !in s.fired
  }

  /** The next due slot is then on a lower level, in the same top-level block. */
  lemma StuckBelowTop(s: Sweep, now: nat, b: nat, hidden: Entry)
    requires Stuck(s, now, b, hidden)
    requires NextExpiration(s.wheel).Some? && NextExpiration(s.wheel).value.deadline <= now
    ensures NextExpiration(s.wheel).value.level < 5
    ensures Block(5, NextExpiration(s.wheel).value.deadline) == b
  {
    var x := NextExpiration(s.wheel).value;
    BeforeBlock(5, now, b + 64);
    if x.level == 5 {
      CurrentSlotHidesOthers(s.wheel);
      assert false;
    }
    SlotBelowTop(s.wheel);
  }

  lemma SlotBelowTop(w: Wheel)
    requires Sound(w) && NextExpiration(w).Some? && NextExpiration(w).value.level < 5
    ensures SameBlock(5, NextExpiration(w).value.deadline, w.elapsed)
    ensures forall e :: e in At(w, NextExpiration(w).value) ==> SameBlock(5, w.elapsed, e.deadline)
  {
    var x := NextExpiration(w).value;
    LowestLevelFirst(w);
    LevelsPlaced(w, x.level, false);
    var ahead := LevelDeadline(w, x.level);
    SameBlockAbove(x.level + 1, 5, x.deadline, w.elapsed);
    forall e | e in At(w, x) ensures SameBlock(5, w.elapsed, e.deadline) {
      LowTimersAreNear(w, e, Index(x.level, x.slot));
    }
  }

  lemma StuckTurn(s: Sweep, now: nat, b: nat, hidden: Entry)
    requires Stuck(s, now, b, hidden)
    requires NextExpiration(s.wheel).Some? && NextExpiration(s.wheel).value.deadline <= now
    ensures Stuck(Turn(s, now, NextExpiration(s.wheel).value), now, b, hidden)
  {
    var x := NextExpiration(s.wheel).value;
    StuckBelowTop(s, now, b, hidden);
    SlotBelowTop(s.wheel);
    TurnKeeps(s, now, false);
    SplitConserves(At(s.wheel, x), now, s.held);
    assert Index(x.level, x.slot) < TOP;
  }

  lemma {:induction false} StuckSweep(s: Sweep, now: nat, b: nat, hidden: Entry)
    requires Stuck(s, now, b, hidden)
    ensures hidden !in RunSweep(s, now).fired
    decreases |Timers(s.wheel)|
  {
    var next := NextExpiration(s.wheel);
    if next.Some? && next.value.deadline <= now {
      StuckTurn(s, now, b, hidden);
      EmptyShrinks(s.wheel, next.value);
      StuckSweep(Turn(s, now, next.value), now, b, hidden);
    }
  }

  const TOP_RANGE := 0x4000_0000 // 2^30 ticks, one slot of the top level

  lemma NextTopBlock(t: nat)
    ensures Block(5, t + TOP_RANGE) == Block(5, t) + 1
  {
    assert SlotRange(5) == 64 * SlotRange(4) == 4096 * SlotRange(3) == 0x4_0000 * SlotRange(2)
        == 0x100_0000 * SlotRange(1) == TOP_RANGE;
    BlockIsQuotient(5, t);
    BlockIsQuotient(5, t + TOP_RANGE);
  }

  const ONE_SLOT_NANOS := TOP_RANGE * NANOS_PER_MILLI

  lemma OneSlotExpiry(t: nat)
    ensures Expiry(t, ONE_SLOT_NANOS) == t + TOP_RANGE
  {
    assert ONE_SLOT_NANOS / NANOS_PER_MILLI % U64_END == TOP_RANGE;
  }

  /** With a timer exactly one rotation ahead, a timer of one slot's length is
      started, comes due, and is not fired. */
  lemma HiddenTimerIsMissed(w: Wheel, far: Entry, hidden: Entry)
    requires Sound(w) && !w.closed && far in Timers(w)
    requires Block(5, far.deadline) == Block(5, w.elapsed) + 64
    requires hidden.deadline == w.elapsed + TOP_RANGE
    ensures hidden !in Advance(Insert(w, hidden).0, hidden.deadline).fired
  {
    var b := Block(5, w.elapsed);
    var w' := Insert(w, hidden).0;
    NextTopBlock(w.elapsed);
    InsertKeeps(w, hidden, false);
    InTopSlot(w', far);
    InTopSlot(w', hidden);
    assert TopSlot(b + 64) == TopSlot(b);
    StuckSweep(Sweep(w', [], []), hidden.deadline, b, hidden);
  }

  lemma InTopSlot(w: Wheel, e: Entry)
    requires Sound(w) && e in Timers(w) && !SameBlock(5, w.elapsed, e.deadline)
    ensures e in w.slots[TopSlot(Block(5, e.deadline))]
  {
    HeldIffInSlot(w.slots, e);
    var i :| 0 <= i < CELLS && e in w.slots[i];
    FarTimersAreOnTop(w, e, i);
  }

  lemma FreshId(ids: set<nat>) returns (id: nat)
    ensures forall i :: i in ids ==> i < id
  {
    if ids == {} {
      id := 0;
    } else {
      var i :| i in ids;
      id := FreshId(ids - {i});
      assert forall j :: j in ids ==> j == i || j in ids - {i};
      if id <= i {
        id := i + 1;
      }
    }
  }

  lemma FirstOutput(w: Wheel, op: Op, rest: seq<Op>)
    ensures RunWheel(w, [op] + rest).1 == [WheelStep(w, op).1] + RunWheel(WheelStep(w, op).0, rest).1
  {
    assert ([op] + rest)[1..] == rest;
  }

  lemma FirstMapOutput(m: TimerMap, op: Op, rest: seq<Op>)
    ensures RunMap(m, [op] + rest).1 == [MapStep(m, op).1] + RunMap(MapStep(m, op).0, rest).1
    ensures AllowedRun(m, [op] + rest) <==> Allowed(m, op) && AllowedRun(MapStep(m, op).0, rest)
  {
    assert ([op] + rest)[1..] == rest;
  }

  /** A faithful wheel answers the next operation as the map does, and stays faithful. */
  lemma FaithfulStep(w: Wheel, m: TimerMap, op: Op)
    requires Faithful(w, m) && Allowed(m, op)
    ensures WheelStep(w, op).1 == MapStep(m, op).1
    ensures Faithful(WheelStep(w, op).0, MapStep(m, op).0)
  {
    var w', m' := WheelStep(w, op).0, MapStep(m, op).0;
    forall ops | AllowedRun(m', ops) ensures RunWheel(w', ops).1 == RunMap(m', ops).1 {
      FirstOutput(w, op, ops);
      FirstMapOutput(m, op, ops);
      assert RunWheel(w, [op] + ops).1 == RunMap(m, [op] + ops).1;
      assert RunWheel(w', ops).1 == RunWheel(w, [op] + ops).1[1..];
      assert RunMap(m', ops).1 == RunMap(m, [op] + ops).1[1..];
    }
    FirstOutput(w, op, []);
    FirstMapOutput(m, op, []);
    assert RunWheel(w, [op] + []).1[0] == RunMap(m, [op] + []).1[0];
  }

  /** The map fires a timer started now as soon as it is due. */
  lemma MapFiresOnTime(m: TimerMap, id: nat, nanos: nat)
    requires !m.closed && nanos > 0 && m.now < Expiry(m.now, nanos)
    ensures var e := Entry(id, Expiry(m.now, nanos));
            e in MapStep(MapStep(m, Start(id, nanos)).0, Tick(e.deadline)).1.fired
  {
    var e := Entry(id, Expiry(m.now, nanos));
    var m' := MapStep(m, Start(id, nanos)).0;
    EntriesOfCount(m'.due, e);
    MapSplits(m', e.deadline);
  }

  lemma FaithfulFiresOnTime(w: Wheel, m: TimerMap, id: nat, nanos: nat)
    requires Faithful(w, m) && Allowed(m, Start(id, nanos)) && w.elapsed == m.now
    requires !m.closed && nanos > 0 && m.now < Expiry(m.now, nanos)
    ensures var e := Entry(id, Expiry(m.now, nanos));
            e in Advance(Add(w, id, nanos).0, e.deadline).fired
  {
    var e := Entry(id, Expiry(m.now, nanos));
    var w', m' := WheelStep(w, Start(id, nanos)).0, MapStep(m, Start(id, nanos)).0;
    FaithfulStep(w, m, Start(id, nanos));
    FaithfulStep(w', m', Tick(e.deadline));
    MapFiresOnTime(m, id, nanos);
    assert e in multiset(Advance(w', e.deadline).fired);
  }

  lemma OneSlotTimerIsMissed(w: Wheel, far: Entry, id: nat)
    requires Sound(w) && !w.closed && far in Timers(w)
    requires Block(5, far.deadline) == Block(5, w.elapsed) + 64
    ensures var e := Entry(id, Expiry(w.elapsed, ONE_SLOT_NANOS));
            e !in Advance(Add(w, id, ONE_SLOT_NANOS).0, e.deadline).fired
  {
    OneSlotExpiry(w.elapsed);
    HiddenTimerIsMissed(w, far, Entry(id, w.elapsed + TOP_RANGE));
  }

  lemma FarTimerNowBreaksMap(w: Wheel, m: TimerMap, far: Entry)
    requires Sound(w) && !w.closed && w.elapsed == m.now && !m.closed && far in Timers(w)
    requires Block(5, far.deadline) == Block(5, m.now) + 64
    ensures !Faithful(w, m)
  {
    var id := FreshId(m.due.Keys);
    if Faithful(w, m) {
      assert Allowed(m, Start(id, ONE_SLOT_NANOS)) && m.now < Expiry(m.now, ONE_SLOT_NANOS) by {
        OneSlotExpiry(m.now);
        NextTopBlock(m.now);
      }
      FaithfulFiresOnTime(w, m, id, ONE_SLOT_NANOS);
      OneSlotTimerIsMissed(w, far, id);
      assert false;
    }
  }

  /** A timer too far ahead: wait until it is one rotation ahead. */
  lemma FarTimerBreaksMap(w: Wheel, m: TimerMap, far: Entry)
    requires Sound(w) && !w.closed && w.elapsed == m.now && !m.closed && far in Timers(w)
    requires !InHorizon(m.now, far.deadline)
    ensures !Faithful(w, m)
  {
    var b := Block(5, far.deadline) - 64;
    var t := if BlockStart(5, b) < m.now then m.now else BlockStart(5, b);
    BlockOfStart(5, b);
    BlockMonotone(5, m.now, t);
    BeforeBlock(5, m.now, b);
    assert Block(5, t) == b;
    if far.deadline <= t {
      BlockMonotone(5, far.deadline, t);
    }
    AdvanceKeeps(w, t, false);
    var w' := Advance(w, t).wheel;
    assert far in Timers(w') by {
      assert (Timers(w') + multiset(Advance(w, t).fired))[far] == Timers(w)[far];
    }
    FarTimerNowBreaksMap(w', MapStep(m, Tick(t)).0, far);
    if Faithful(w, m) {
      FaithfulStep(w, m, Tick(t));
      assert false;
    }
  }

  /** A timer that is registered leaves the wheel a map exactly when it is less than
      one rotation of the top level ahead. */
  lemma HorizonIsExact(w: Wheel, m: TimerMap, id: nat, nanos: nat)
    requires Represents(w, m) && id !in m.due
    requires Add(w, id, nanos).1 == Registered
    ensures Faithful(Add(w, id, nanos).0, MapStep(m, Start(id, nanos)).0)
        <==> InHorizon(m.now, Expiry(m.now, nanos))
  {
    var w', m' := Add(w, id, nanos).0, MapStep(m, Start(id, nanos)).0;
    var e := Entry(id, Expiry(m.now, nanos));
    if InHorizon(m.now, e.deadline) {
      StartRefines(w, m, id, nanos);
      forall ops | AllowedRun(m', ops) ensures RunWheel(w', ops).1 == RunMap(m', ops).1 {
        RunRefines(w', m', ops);
      }
    } else {
      InsertKeeps(w, e, false);
      FarTimerBreaksMap(w', m', e);
    }
  }

  const FAR_NANOS := 64 * ONE_SLOT_NANOS  // 2^36 milliseconds

  lemma FarExpiry()
    ensures Expiry(0, FAR_NANOS) == 64 * TOP_RANGE && Block(5, 64 * TOP_RANGE) == 64 && Block(5, 0) == 0
  {
    assert FAR_NANOS == 64 * TOP_RANGE * NANOS_PER_MILLI;
    assert SlotRange(5) == 64 * SlotRange(4) == 4096 * SlotRange(3) == 0x4_0000 * SlotRange(2)
        == 0x100_0000 * SlotRange(1) == TOP_RANGE;
    BlockIsQuotient(5, 64 * TOP_RANGE);
    BlockIsQuotient(5, 0);
  }

  /** From a new wheel: a timer of 2^36 ms is started, then one of 2^30 ms, and time moves to
      2^30 ms. The map fires the second timer, the wheel does not. */
  lemma SecondTimerIsMissed()
    ensures var near := Entry(1, TOP_RANGE);
            var w := Add(Add(EmptyWheel, 0, FAR_NANOS).0, 1, ONE_SLOT_NANOS).0;
            && near in Timers(w) && near !in Advance(w, TOP_RANGE).fired
    ensures !Faithful(Add(EmptyWheel, 0, FAR_NANOS).0, MapStep(TimerMap(0, false, map[]), Start(0, FAR_NANOS)).0)
  {
    var far := Entry(0, 64 * TOP_RANGE);
    NoTimersHeld(EmptyWheel);
    FarExpiry();
    InsertKeeps(EmptyWheel, far, false);
    var w := Insert(EmptyWheel, far).0;
    OneSlotExpiry(0);
    InsertKeeps(w, Entry(1, TOP_RANGE), false);
    HiddenTimerIsMissed(w, far, Entry(1, TOP_RANGE));
    HorizonIsExact(EmptyWheel, TimerMap(0, false, map[]), 0, FAR_NANOS);
  }
}
