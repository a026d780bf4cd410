/** The placement invariant of the timer wheel.

    Every timer sits where a fresh insertion would put it now, although time has
    moved since it was inserted.  In a `Sound` wheel this holds on the five lower
    levels; in an `Exact` wheel it holds on the top level too, whose 64 slots form
    a ring, and no timer is more than one rotation of that ring away. */
module WheelPlacement {
  import opened Wrappers
  import opened Ticks
  import opened WheelSpec

  const TOP := 320 // index of the first slot of the top level

  /** The deadline is less than one rotation of the top level ahead. */
  predicate InHorizon(elapsed: nat, deadline: nat) {
    Block(5, deadline) <= Block(5, elapsed) + 63
  }

  predicate Placed(elapsed: nat, e: Entry, i: nat, strict: bool) {
    && i % SLOTS == SlotFor(e.deadline, i / SLOTS)
    && (i < TOP || strict ==>
          elapsed < e.deadline && LevelFor(elapsed, e.deadline) == i / SLOTS && InHorizon(elapsed, e.deadline))
  }

  ghost predicate AllPlaced(w: Wheel, strict: bool) {
    forall i, e :: 0 <= i < CELLS && e in w.slots[i] ==> Placed(w.elapsed, e, i, strict)
  }

  ghost predicate NoTimers(w: Wheel) {
    forall i :: 0 <= i < CELLS ==> w.slots[i] == []
  }

  ghost predicate Sound(w: Wheel) {
    AllPlaced(w, false) && (w.closed ==> NoTimers(w))
  }

  ghost predicate Exact(w: Wheel) {
    AllPlaced(w, true) && (w.closed ==> NoTimers(w))
  }

  // ----- blocks and placement -------------------------------------------------------

  lemma BeforeBlock(level: nat, t: nat, b: nat)
    ensures t < BlockStart(level, b) <==> Block(level, t) < b
  {
    BlockBounds(level, t);
    if Block(level, t) < b {
      BlockStartMonotone(level, Block(level, t) + 1, b);
    } else {
      BlockStartMonotone(level, b, Block(level, t));
    }
  }

  /** A placed timer is between 1 and 63 slots of its level ahead of the current one. */
  lemma SlotsAhead(elapsed: nat, e: Entry, i: nat)
    requires i < CELLS && Placed(elapsed, e, i, true)
    ensures var n, b := Block(i / SLOTS, elapsed), Block(i / SLOTS, e.deadline);
            n < b <= n + 63 && b % SLOTS == i % SLOTS && (i < TOP ==> b / SLOTS == n / SLOTS)
  {
    var level := i / SLOTS;
    SlotIsBlockDigit(e.deadline, level);
    BlockMonotone(level, elapsed, e.deadline);
    assert level > 0 ==> !SameBlock(level, elapsed, e.deadline);
    if level < 5 {
      assert SameBlock(level + 1, elapsed, e.deadline);
    }
  }

  /** A timer stays where it belongs until time reaches its slot. */
  lemma StaysPlaced(t: nat, t': nat, e: Entry, i: nat, strict: bool)
    requires i < CELLS && Placed(t, e, i, strict) && t <= t'
    requires i < TOP || strict ==> Block(i / SLOTS, t') < Block(i / SLOTS, e.deadline)
    ensures Placed(t', e, i, strict)
  {
    if i < TOP || strict {
      var level, d := i / SLOTS, e.deadline;
      if d <= t' {
        BlockMonotone(level, d, t');
      }
      if level < 5 {
        assert SameBlock(level + 1, t, d);
        BlockMonotone(level + 1, t, t');
        BlockMonotone(level + 1, t', d);
      }
      LevelIsLeast(t', d, level);
      BlockMonotone(5, t, t');
    }
  }

  // ----- the search -----------------------------------------------------------------

  predicate EmptyAhead(slots: Slots, level: nat, from: nat, j: nat)
    requires level < LEVELS
  {
    slots[Index(level, (from + j) % SLOTS)] == []
  }

  /** The search goes round the level and stops at the first occupied slot. */
  lemma FirstOccupiedIsFirst(slots: Slots, level: nat, from: nat) returns (ahead: nat)
    requires level < LEVELS
    ensures ahead <= SLOTS
    ensures forall j :: 0 <= j < ahead ==> EmptyAhead(slots, level, from, j)
    ensures match FirstOccupied(slots, level, from)
            case None => ahead == SLOTS
            case Some(slot) => ahead < SLOTS && slot == (from + ahead) % SLOTS
  {
    ahead := LeadingEmpty(Around(slots, level, from));
    forall j | 0 <= j < ahead ensures EmptyAhead(slots, level, from, j) {
      assert Around(slots, level, from)[j] == [];
    }
  }

  lemma SlotAhead(slots: Slots, level: nat, from: nat, slot: nat) returns (j: nat)
    requires level < LEVELS && slot < SLOTS
    ensures j < SLOTS && (from + j) % SLOTS == slot
    ensures EmptyAhead(slots, level, from, j) <==> slots[Index(level, slot)] == []
  {
    j := (slot - from) % SLOTS;
  }

  lemma LevelEmptyIffNone(w: Wheel, level: nat)
    requires level < LEVELS
    ensures LevelExpiration(w, level).None?
        <==> forall slot :: 0 <= slot < SLOTS ==> w.slots[Index(level, slot)] == []
  {
    var from := w.elapsed / SlotRange(level);
    var ahead := FirstOccupiedIsFirst(w.slots, level, from);
    if LevelExpiration(w, level).None? {
      forall slot | 0 <= slot < SLOTS ensures w.slots[Index(level, slot)] == [] {
        var j := SlotAhead(w.slots, level, from, slot);
      }
    }
  }

  lemma SearchFromLevel(w: Wheel, level: nat)
    requires level <= LEVELS
    ensures match ExpirationFrom(w, level)
            case None => forall l :: level <= l < LEVELS ==> LevelExpiration(w, l).None?
            case Some(x) =>
              && LevelExpiration(w, x.level) == Some(x)
              && forall l :: level <= l < x.level ==> LevelExpiration(w, l).None?
    decreases LEVELS - level
  {
    if level < LEVELS && LevelExpiration(w, level).None? {
      SearchFromLevel(w, level + 1);
    }
  }

  /** The search is lowest level first, and finds something exactly when a slot is occupied. */
  lemma LowestLevelFirst(w: Wheel)
    ensures NextExpiration(w).None? <==> NoTimers(w)
    ensures NextExpiration(w).Some? ==>
              LevelExpiration(w, NextExpiration(w).value.level) == NextExpiration(w)
    ensures NextExpiration(w).Some? ==>
              forall i :: 0 <= i < SLOTS * NextExpiration(w).value.level ==> w.slots[i] == []
  {
    SearchFromLevel(w, 0);
    forall i | 0 <= i < CELLS && LevelExpiration(w, i / SLOTS).None? ensures w.slots[i] == [] {
      LevelEmptyIffNone(w, i / SLOTS);
      assert i == Index(i / SLOTS, i % SLOTS);
    }
    if NextExpiration(w).Some? {
      assert At(w, NextExpiration(w).value) != [];
    }
  }

  /** The tick computed for a slot is the start of the next block with that digit,
      on every level and across the wrap of the top one. */
  lemma SlotDeadlineIsBlockStart(now: nat, level: nat, k: nat)
    requires 1 <= k <= SLOTS
    ensures var n := Block(level, now);
            SlotDeadline(now, level, (n + k) % SLOTS) == BlockStart(level, n + k)
  {
    var n := Block(level, now);
    var slot := (n + k) % SLOTS;
    var base := n / SLOTS * SLOTS;
    RotationStart(level, now);
    assert Block(level + 1, now) == n / SLOTS;
    var deadline := now - now % LevelRange(level) + slot * SlotRange(level);
    assert deadline == BlockStart(level, base + slot) by {
      assert (base + slot) * SlotRange(level) == base * SlotRange(level) + slot * SlotRange(level);
    }
    BeforeBlock(level, now, base + slot);
    if base + slot > n {
      assert base + slot == n + k;
    } else {
      assert base + slot + SLOTS == n + k;
      assert (base + slot + SLOTS) * SlotRange(level)
          == (base + slot) * SlotRange(level) + SLOTS * SlotRange(level);
    }
  }

  ghost predicate LevelPlaced(w: Wheel, level: nat)
    requires level < LEVELS
  {
    forall slot, e :: 0 <= slot < SLOTS && e in w.slots[Index(level, slot)]
      ==> Placed(w.elapsed, e, Index(level, slot), true)
  }

  lemma SameDigit(n: nat, b: nat, k: nat)
    requires n <= b <= n + 63 && k < SLOTS && b % SLOTS == (n + k) % SLOTS
    ensures b == n + k
  {
  }

  /** A timer of a slot `k` steps ahead of the current one is `k` blocks ahead. */
  lemma DistanceAhead(w: Wheel, level: nat, k: nat, e: Entry)
    requires level < LEVELS && LevelPlaced(w, level) && k < SLOTS
    requires e in w.slots[Index(level, (Block(level, w.elapsed) + k) % SLOTS)]
    ensures 1 <= k && Block(level, e.deadline) == Block(level, w.elapsed) + k
    ensures level < 5 ==> SameBlock(level + 1, e.deadline, w.elapsed)
  {
    var i := Index(level, (Block(level, w.elapsed) + k) % SLOTS);
    SlotsAhead(w.elapsed, e, i);
    SameDigit(Block(level, w.elapsed), Block(level, e.deadline), k);
  }

  lemma LevelsPlaced(w: Wheel, level: nat, strict: bool)
    requires AllPlaced(w, strict) && level < LEVELS && (level < 5 || strict)
    ensures LevelPlaced(w, level)
  {
  }

  /** The first occupied slot of a level lies between 1 and 63 slots ahead. */
  lemma FirstAhead(w: Wheel, level: nat, x: Expiration) returns (ahead: nat)
    requires level < LEVELS && LevelPlaced(w, level) && LevelExpiration(w, level) == Some(x)
    ensures 1 <= ahead <= 63
    ensures var n := Block(level, w.elapsed);
            && x.slot == (n + ahead) % SLOTS && x.deadline == SlotDeadline(w.elapsed, level, x.slot)
            && (forall j :: 0 <= j < ahead ==> EmptyAhead(w.slots, level, n, j))
            && exists e: Entry :: Block(level, e.deadline) == n + ahead
                           && (level < 5 ==> SameBlock(level + 1, e.deadline, w.elapsed))
  {
    var n := Block(level, w.elapsed);
    BlockIsQuotient(level, w.elapsed);
    ahead := FirstOccupiedIsFirst(w.slots, level, n);
    var first := At(w, x)[0];
    DistanceAhead(w, level, ahead, first);
    assert Block(level, first.deadline) == n + ahead;
  }

  /** The expiration of a level lies between 1 and 63 slots ahead, at the start of
      the first occupied one. */
  lemma LevelDeadline(w: Wheel, level: nat) returns (ahead: nat)
    requires level < LEVELS && LevelPlaced(w, level) && LevelExpiration(w, level).Some?
    ensures 1 <= ahead <= 63
    ensures var x, n := LevelExpiration(w, level).value, Block(level, w.elapsed);
            && x.slot == (n + ahead) % SLOTS
            && Block(level, x.deadline) == n + ahead
            && x.deadline == BlockStart(level, Block(level, x.deadline))
            && (level < 5 ==> SameBlock(level + 1, x.deadline, w.elapsed))
            && forall j :: 0 <= j < ahead ==> EmptyAhead(w.slots, level, n, j)
  {
    var n := Block(level, w.elapsed);
    ahead := FirstAhead(w, level, LevelExpiration(w, level).value);
    SlotDeadlineIsBlockStart(w.elapsed, level, ahead);
    BlockOfStart(level, n + ahead);
  }

  /** A timer of a level against the first occupied slot, `ahead` slots on. */
  lemma AgainstTheFirst(w: Wheel, level: nat, x: Expiration, ahead: nat, slot: nat, e: Entry)
    requires level < LEVELS && LevelPlaced(w, level) && slot < SLOTS && e in w.slots[Index(level, slot)]
    requires ahead <= 63 && x.slot == (Block(level, w.elapsed) + ahead) % SLOTS
    requires forall j :: 0 <= j < ahead ==> EmptyAhead(w.slots, level, Block(level, w.elapsed), j)
    ensures var b := Block(level, e.deadline);
            if slot == x.slot then b == Block(level, w.elapsed) + ahead else b > Block(level, w.elapsed) + ahead
  {
    var n := Block(level, w.elapsed);
    var j := SlotAhead(w.slots, level, n, slot);
    DistanceAhead(w, level, j, e);
    assert !EmptyAhead(w.slots, level, n, j);
    assert ahead <= j;
    SameDigitSameSlot(n, ahead, j);
  }

  /** On its own level, the expiration is the start of its slot, and every other
      timer of the level belongs to a later slot. */
  lemma EarliestOnLevel(w: Wheel, level: nat, slot: nat, e: Entry)
    requires level < LEVELS && LevelPlaced(w, level) && LevelExpiration(w, level).Some?
    requires slot < SLOTS && e in w.slots[Index(level, slot)]
    ensures var x := LevelExpiration(w, level).value;
            var b := Block(level, e.deadline);
            && (level < 5 ==> SameBlock(level + 1, x.deadline, w.elapsed))
            && (slot == x.slot ==> x.deadline == BlockStart(level, b))
            && (slot != x.slot ==> Block(level, x.deadline) < b)
  {
    var ahead := LevelDeadline(w, level);
    AgainstTheFirst(w, level, LevelExpiration(w, level).value, ahead, slot, e);
  }

  /** Only the top level is a ring: on a lower one the slot that was found starts
      later in the current rotation, without a wrap. */
  lemma LowerLevelsDoNotWrap(w: Wheel, level: nat)
    requires Sound(w) && level < 5 && LevelExpiration(w, level).Some?
    ensures var x := LevelExpiration(w, level).value;
            w.elapsed - w.elapsed % LevelRange(level) + x.slot * SlotRange(level) > w.elapsed
  {
    var x := LevelExpiration(w, level).value;
    LevelsPlaced(w, level, false);
    var ahead := LevelDeadline(w, level);
    WithinRotation(level, w.elapsed, x.deadline);
    WrapIsLate(w.elapsed, level, x.slot);
  }

  lemma WrapIsLate(now: nat, level: nat, slot: nat)
    requires SlotDeadline(now, level, slot) < now - now % LevelRange(level) + LevelRange(level)
    ensures now - now % LevelRange(level) + slot * SlotRange(level) > now
  {
    assert slot * SlotRange(level) >= 0;
  }

  lemma WithinRotation(level: nat, now: nat, t: nat)
    requires SameBlock(level + 1, t, now)
    ensures t < now - now % LevelRange(level) + LevelRange(level)
  {
    BlockIsQuotient(level + 1, now);
    BlockIsQuotient(level + 1, t);
    var p := SlotRange(level + 1);
    assert now == p * (now / p) + now % p;
    assert t == p * (t / p) + t % p;
  }

  lemma SameDigitSameSlot(n: nat, j: nat, k: nat)
    requires j < SLOTS && k < SLOTS
    ensures (n + j) % SLOTS == (n + k) % SLOTS <==> j == k
  {
  }

  /** Where a slot is due stands to the other timers. */
  ghost predicate Earliest(w: Wheel, x: Expiration, i: nat, e: Entry)
    requires x.level < LEVELS && x.slot < SLOTS
  {
    if i == Index(x.level, x.slot) then x.deadline == BlockStart(x.level, Block(x.level, e.deadline))
    else Block(i / SLOTS, x.deadline) < Block(i / SLOTS, e.deadline)
  }

  /** The lowest-level-first search finds the earliest slot of the whole wheel:
      its own timers start exactly there, and time can move to it without any
      other timer having to change place. */
  lemma EarliestOverall(w: Wheel, strict: bool, i: nat, e: Entry)
    requires AllPlaced(w, strict) && NextExpiration(w).Some?
    requires i < CELLS && e in w.slots[i] && (i < TOP || strict)
    ensures Earliest(w, NextExpiration(w).value, i, e)
  {
    var x := NextExpiration(w).value;
    LowestLevelFirst(w);
    assert i >= SLOTS * x.level;
    var level := i / SLOTS;
    assert i == Index(level, i % SLOTS);
    LevelsPlaced(w, x.level, strict);
    if level == x.level {
      EarliestOnLevel(w, x.level, i % SLOTS, e);
    } else {
      var ahead := LevelDeadline(w, x.level);
      SameBlockAbove(x.level + 1, level, x.deadline, w.elapsed);
      SlotsAhead(w.elapsed, e, i);
    }
  }

  /** The expiration never passes a deadline. */
  lemma EarliestBeforeDeadline(w: Wheel, strict: bool, i: nat, e: Entry)
    requires AllPlaced(w, strict) && NextExpiration(w).Some?
    requires i < CELLS && e in w.slots[i] && (i < TOP || strict)
    ensures NextExpiration(w).value.deadline <= e.deadline
    ensures i != Index(NextExpiration(w).value.level, NextExpiration(w).value.slot) ==>
              NextExpiration(w).value.deadline < e.deadline
  {
    var x := NextExpiration(w).value;
    EarliestOverall(w, strict, i, e);
    var level := i / SLOTS;
    BlockBounds(level, e.deadline);
    if i != Index(x.level, x.slot) {
      BeforeBlock(level, x.deadline, Block(level, e.deadline));
    }
  }

  // ----- moving time ----------------------------------------------------------------

  /** Time may move up to the next expiration, and not beyond, in one step. */
  lemma TimeMovesFreely(w: Wheel, now: nat, strict: bool)
    requires AllPlaced(w, strict) && w.elapsed <= now
    requires NextExpiration(w).Some? ==> now < NextExpiration(w).value.deadline
    ensures AllPlaced(w.(elapsed := now), strict)
  {
    forall i, e | 0 <= i < CELLS && e in w.slots[i] ensures Placed(now, e, i, strict) {
      LowestLevelFirst(w);
      if i < TOP || strict {
        EarliestOverall(w, strict, i, e);
        var x := NextExpiration(w).value;
        if i == Index(x.level, x.slot) {
          BeforeBlock(x.level, now, Block(x.level, e.deadline));
        } else {
          BlockMonotone(i / SLOTS, now, x.deadline);
        }
      }
      StaysPlaced(w.elapsed, now, e, i, strict);
    }
  }

  /** Taking the due slot, time may move to its start. */
  lemma TimeMovesToSlot(w: Wheel, strict: bool)
    requires AllPlaced(w, strict) && NextExpiration(w).Some?
    ensures var x := NextExpiration(w).value;
            AllPlaced(EmptySlot(w, x).(elapsed := x.deadline), strict)
  {
    var x := NextExpiration(w).value;
    var w' := EmptySlot(w, x);
    forall i, e | 0 <= i < CELLS && e in w'.slots[i] ensures Placed(x.deadline, e, i, strict) {
      assert i != Index(x.level, x.slot) && e in w.slots[i];
      if i < TOP || strict {
        EarliestOverall(w, strict, i, e);
      }
      StaysPlaced(w.elapsed, x.deadline, e, i, strict);
    }
  }
}
