/** Timers only ever move down: the cascade bound, and termination of repeated
    advancing, with the sum of `level + 1` over all timers as measure. */
module WheelCascade {
  import opened Wrappers
  import opened Ticks
  import opened WheelSpec
  import opened WheelPlacement
  import opened WheelAdvance
  import opened WheelRefinement

  /** A timer held back from a due slot belongs on a strictly lower level from then
      on; in particular nothing is ever held back from level 0. */
  lemma HeldBackMovesDown(w: Wheel, now: nat, e: Entry, strict: bool)
    requires AllPlaced(w, strict) && NextExpiration(w).Some?
    requires NextExpiration(w).value.level < 5 || strict
    requires NextExpiration(w).value.deadline <= now < e.deadline
    requires e in At(w, NextExpiration(w).value)
    ensures LevelFor(now, e.deadline) < NextExpiration(w).value.level
  {
    var x := NextExpiration(w).value;
    EarliestOverall(w, strict, Index(x.level, x.slot), e);
    BlockOfStart(x.level, Block(x.level, e.deadline));
    BlockMonotone(x.level, x.deadline, now);
    BlockMonotone(x.level, now, e.deadline);
    assert SameBlock(x.level, now, e.deadline);
  }

  /** A timer that stays registered never rises to a higher level, and changes slots only
      to fall to a lower one. */
  lemma LevelsOnlyFall(w: Wheel, now: nat, e: Entry)
    requires Exact(w) && w.elapsed <= now && e in Timers(Advance(w, now).wheel)
    ensures e in Timers(w)
    ensures e in w.slots[Place(w.elapsed, e.deadline)]
    ensures e in Advance(w, now).wheel.slots[Place(now, e.deadline)]
    ensures LevelFor(now, e.deadline) <= LevelFor(w.elapsed, e.deadline)
    ensures Place(now, e.deadline) != Place(w.elapsed, e.deadline)
            ==> LevelFor(now, e.deadline) < LevelFor(w.elapsed, e.deadline)
  {
    AdvanceKeeps(w, now, true);
    assert (Timers(Advance(w, now).wheel) + multiset(Advance(w, now).fired))[e] == Timers(w)[e];
    FoundWherePlaced(w, e);
    FoundWherePlaced(Advance(w, now).wheel, e);
    AllAhead(Advance(w, now).wheel, e);
    LevelNeverRises(w.elapsed, now, e.deadline);
  }

  /** How often a registered timer changes slots in a run of operations, until it leaves the
      wheel. */
  function Moves(w: Wheel, e: Entry, ops: seq<Op>): nat
    decreases |ops|
  {
    if ops == [] then 0
    else
      var w' := WheelStep(w, ops[0]).0;
      if e !in Timers(w') then 0
      else (if e in w'.slots[Place(w.elapsed, e.deadline)] then 0 else 1) + Moves(w', e, ops[1..])
  }

  /** Only the passing of time moves a timer, and then to a lower level. */
  lemma MovesAreFalls(w: Wheel, m: TimerMap, e: Entry, op: Op)
    requires Represents(w, m) && Allowed(m, op) && e in Timers(w) && e in Timers(WheelStep(w, op).0)
    ensures var w' := WheelStep(w, op).0;
            && LevelFor(w'.elapsed, e.deadline) <= LevelFor(w.elapsed, e.deadline)
            && (e !in w'.slots[Place(w.elapsed, e.deadline)]
                ==> op.Tick? && LevelFor(w'.elapsed, e.deadline) < LevelFor(w.elapsed, e.deadline))
  {
    StepRefines(w, m, op);
    if op.Tick? {
      LevelsOnlyFall(w, op.now, e);
    } else {
      FoundWherePlaced(WheelStep(w, op).0, e);
    }
  }

  /** In its whole life a timer moves at most as often as the level it starts on, at most five
      times: in every run of starting, cancelling, advancing and shutting down, until it
      fires, fails or is cancelled. */
  lemma {:induction false} AtMostFiveMoves(w: Wheel, m: TimerMap, e: Entry, ops: seq<Op>)
    requires Represents(w, m) && AllowedRun(m, ops) && e in Timers(w)
    ensures Moves(w, e, ops) <= LevelFor(w.elapsed, e.deadline) <= 5
    decreases |ops|
  {
    if ops == [] {
    } else {
      var w', m' := WheelStep(w, ops[0]).0, MapStep(m, ops[0]).0;
      StepRefines(w, m, ops[0]);
      if e in Timers(w') {
        MovesAreFalls(w, m, e, ops[0]);
        AtMostFiveMoves(w', m', e, ops[1..]);
      }
    }
  }

  // ----- the measure ----------------------------------------------------------------

  function WeightFrom(slots: seq<seq<Entry>>, base: nat): nat {
    if slots == [] then 0 else (base / SLOTS + 1) * |slots[0]| + WeightFrom(slots[1..], base + 1)
  }

  /** The sum of `level + 1` over the timers of the wheel. */
  function Weight(w: Wheel): nat {
    WeightFrom(w.slots, 0)
  }

  lemma {:induction false} WeightUpdate(slots: seq<seq<Entry>>, base: nat, i: nat, entries: seq<Entry>)
    requires i < |slots|
    ensures WeightFrom(slots[i := entries], base) + ((base + i) / SLOTS + 1) * |slots[i]|
         == WeightFrom(slots, base) + ((base + i) / SLOTS + 1) * |entries|
  {
    if i == 0 {
      assert slots[i := entries][1..] == slots[1..];
    } else {
      WeightUpdate(slots[1..], base + 1, i - 1, entries);
      assert slots[i := entries][1..] == slots[1..][i - 1 := entries];
    }
  }

  lemma AtMostSixTimes(factor: nat, n: nat)
    requires factor <= 6
    ensures factor * n <= 6 * n
  {
    assert (6 - factor) * n >= 0;
  }

  lemma {:induction false} WeightAtMostSixEach(slots: seq<seq<Entry>>, base: nat)
    requires base + |slots| <= CELLS
    ensures WeightFrom(slots, base) <= 6 * |Held(slots)|
  {
    if slots != [] {
      WeightAtMostSixEach(slots[1..], base + 1);
      AtMostSixTimes(base / SLOTS + 1, |slots[0]|);
      assert |Held(slots)| == |multiset(slots[0])| + |Held(slots[1..])|;
    }
  }

  /** What timers held back until `now` will weigh once they are put back. */
  function HeldWeight(held: seq<Entry>, now: nat): nat {
    if held == [] then 0 else LevelFor(now, held[0].deadline) + 1 + HeldWeight(held[1..], now)
  }

  lemma HeldWeightOfFront(e: Entry, held: seq<Entry>, now: nat)
    ensures HeldWeight([e] + held, now) == LevelFor(now, e.deadline) + 1 + HeldWeight(held, now)
  {
    assert ([e] + held)[1..] == held;
  }

  lemma {:induction false} HoldBackWeight(entries: seq<Entry>, now: nat, held: seq<Entry>, level: nat)
    requires forall e :: e in entries && e.deadline > now ==> LevelFor(now, e.deadline) < level
    ensures HeldWeight(HoldBack(entries, now, held), now) <= HeldWeight(held, now) + level * |entries|
    decreases |entries|
  {
    if entries != [] {
      var e := entries[0];
      assert level * |entries| == level * |entries[1..]| + level;
      if e.deadline > now {
        HeldWeightOfFront(e, held, now);
        HoldBackWeight(entries[1..], now, [e] + held, level);
      } else {
        assert [] + held == held;
        HoldBackWeight(entries[1..], now, held, level);
      }
    }
  }

  lemma {:induction false} DueLength(entries: seq<Entry>, now: nat)
    ensures |Due(entries, now)| <= |entries|
  {
    if entries != [] {
      DueLength(entries[1..], now);
    }
  }

  function SweepWeight(s: Sweep, now: nat): nat {
    Weight(s.wheel) + HeldWeight(s.held, now)
  }

  lemma EmptySlotWeighsLess(w: Wheel, x: Expiration)
    requires x.level < LEVELS && x.slot < SLOTS
    ensures Weight(EmptySlot(w, x)) + x.level * |At(w, x)| + |At(w, x)| == Weight(w)
  {
    WeightUpdate(w.slots, 0, Index(x.level, x.slot), []);
    var n := |At(w, x)|;
    assert (x.level + 1) * n == x.level * n + n;
  }

  lemma HeldFromSlotWeigh(w: Wheel, now: nat, held: seq<Entry>)
    requires AllPlaced(w, true) && NextExpiration(w).Some? && NextExpiration(w).value.deadline <= now
    ensures var x := NextExpiration(w).value;
            HeldWeight(HoldBack(At(w, x), now, held), now) <= HeldWeight(held, now) + x.level * |At(w, x)|
  {
    var x := NextExpiration(w).value;
    forall e | e in At(w, x) && e.deadline > now ensures LevelFor(now, e.deadline) < x.level {
      HeldBackMovesDown(w, now, e, true);
    }
    HoldBackWeight(At(w, x), now, held, x.level);
  }

  lemma TurnWeighsLess(s: Sweep, now: nat)
    requires SweepOk(s, now, true)
    requires NextExpiration(s.wheel).Some? && NextExpiration(s.wheel).value.deadline <= now
    ensures var t := Turn(s, now, NextExpiration(s.wheel).value);
            && SweepWeight(t, now) < SweepWeight(s, now)
            && SweepWeight(t, now) + |t.fired| <= SweepWeight(s, now) + |s.fired|
  {
    var x := NextExpiration(s.wheel).value;
    HeldFromSlotWeigh(s.wheel, now, s.held);
    EmptySlotWeighsLess(s.wheel, x);
    DueLength(At(s.wheel, x), now);
  }

  lemma {:induction false} SweepWeighsLess(s: Sweep, now: nat)
    requires SweepOk(s, now, true)
    ensures var t := RunSweep(s, now);
            && SweepWeight(t, now) + |t.fired| <= SweepWeight(s, now) + |s.fired|
            && (NextExpiration(s.wheel).Some? && NextExpiration(s.wheel).value.deadline <= now
                ==> SweepWeight(t, now) < SweepWeight(s, now))
            && SweepWeight(t, now) <= SweepWeight(s, now)
    decreases |Timers(s.wheel)|
  {
    var next := NextExpiration(s.wheel);
    if next.Some? && next.value.deadline <= now {
      TurnWeighsLess(s, now);
      TurnKeeps(s, now, true);
      EmptyShrinks(s.wheel, next.value);
      SweepWeighsLess(Turn(s, now, next.value), now);
    }
  }

  lemma {:induction false} InsertAllWeight(w: Wheel, entries: seq<Entry>)
    requires !w.closed || entries == []
    requires forall e :: e in entries ==> w.elapsed < e.deadline
    ensures Weight(InsertAll(w, entries)) == Weight(w) + HeldWeight(entries, w.elapsed)
    decreases |entries|
  {
    if entries != [] {
      var e := entries[0];
      var i := Place(w.elapsed, e.deadline);
      WeightUpdate(w.slots, 0, i, [e] + w.slots[i]);
      var level := LevelFor(w.elapsed, e.deadline);
      assert (level + 1) * (|w.slots[i]| + 1) == (level + 1) * |w.slots[i]| + level + 1;
      InsertAllWeight(Insert(w, e).0, entries[1..]);
    }
  }

  /** Advancing costs weight: at least one for every timer fired, and at least one
      whenever a slot was due. */
  lemma AdvanceWeighsLess(w: Wheel, now: nat)
    requires Exact(w) && w.elapsed <= now
    ensures Weight(Advance(w, now).wheel) + |Advance(w, now).fired| <= Weight(w)
    ensures NextExpiration(w).Some? && NextExpiration(w).value.deadline <= now
            ==> Weight(Advance(w, now).wheel) < Weight(w)
  {
    var s := Sweep(w, [], []);
    var swept := RunSweep(s, now);
    SweepKeeps(s, now, true);
    SweepWeighsLess(s, now);
    InsertAllWeight(swept.wheel.(elapsed := now), swept.held);
  }

  // ----- advancing to what advance returns ----------------------------------------------

  /** Advance to the returned deadline until nothing is returned: the number of
      rounds and everything fired. */
  ghost function FireAll(w: Wheel): (r: (nat, seq<Entry>))
    requires Exact(w)
    decreases Weight(w)
  {
    var next := NextExpiration(w);
    if next.None? then (0, [])
    else
      AdvanceKeeps(w, next.value.deadline, true);
      AdvanceWeighsLess(w, next.value.deadline);
      var r := Advance(w, next.value.deadline);
      var rest := FireAll(r.wheel);
      (rest.0 + 1, r.fired + rest.1)
  }

  /** It ends after at most six rounds per timer, with every timer fired. */
  lemma {:induction false} FireAllFiresAll(w: Wheel)
    requires Exact(w)
    ensures multiset(FireAll(w).1) == Timers(w)
    ensures FireAll(w).0 <= Weight(w) <= 6 * |Timers(w)|
    decreases Weight(w)
  {
    WeightAtMostSixEach(w.slots, 0);
    LowestLevelFirst(w);
    NoTimersHeld(w);
    var next := NextExpiration(w);
    if next.Some? {
      AdvanceKeeps(w, next.value.deadline, true);
      AdvanceWeighsLess(w, next.value.deadline);
      FireAllFiresAll(Advance(w, next.value.deadline).wheel);
    }
  }
}
