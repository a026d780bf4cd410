/** What one call of `advance`, `add`, `remove` and `shutdown` does to the timers. */
module WheelAdvance {
  import opened Wrappers
  import opened Bags
  import opened Ticks
  import opened WheelSpec
  import opened WheelPlacement

  // ----- inserting and removing -----------------------------------------------------

  lemma PlaceIsPlaced(elapsed: nat, e: Entry, strict: bool)
    requires elapsed < e.deadline && (strict ==> InHorizon(elapsed, e.deadline))
    ensures Placed(elapsed, e, Place(elapsed, e.deadline), strict)
  {
    var level := LevelFor(elapsed, e.deadline);
    if level < 5 {
      SameBlockAbove(level + 1, 5, elapsed, e.deadline);
    }
  }

  /** An insertion within the horizon keeps the wheel exact, any other keeps it sound. */
  lemma InsertKeeps(w: Wheel, e: Entry, strict: bool)
    requires AllPlaced(w, strict) && !w.closed && w.elapsed < e.deadline
    requires strict ==> InHorizon(w.elapsed, e.deadline)
    ensures Insert(w, e).1 == Registered && AllPlaced(Insert(w, e).0, strict)
    ensures Timers(Insert(w, e).0) == Timers(w) + multiset{e}
  {
    var i := Place(w.elapsed, e.deadline);
    PlaceIsPlaced(w.elapsed, e, strict);
    HeldUpdate(w.slots, i, [e] + w.slots[i]);
    assert multiset([e] + w.slots[i]) == multiset{e} + multiset(w.slots[i]);
    Cancel(Timers(Insert(w, e).0), Timers(w) + multiset{e}, multiset(w.slots[i]));
  }

  /** Whatever its length, a timer leaves the wheel sound. */
  lemma AddKeepsSound(w: Wheel, id: nat, nanos: nat)
    requires Sound(w)
    ensures Sound(Add(w, id, nanos).0)
    ensures forall i, e :: 0 <= i < CELLS && e in Add(w, id, nanos).0.slots[i]
              ==> e in w.slots[i] || e.deadline == Expiry(w.elapsed, nanos)
  {
    var e := Entry(id, Expiry(w.elapsed, nanos));
    if Add(w, id, nanos).1 == Registered {
      InsertKeeps(w, e, false);
    }
  }

  /** A registered timer is always where `remove` looks for it. */
  lemma FoundWherePlaced(w: Wheel, e: Entry)
    requires AllPlaced(w, true) && e in Timers(w)
    ensures e in w.slots[Place(w.elapsed, e.deadline)]
  {
    HeldIffInSlot(w.slots, e);
    var i :| 0 <= i < CELLS && e in w.slots[i];
    assert Placed(w.elapsed, e, i, true);
  }

  lemma RemoveKeeps(w: Wheel, e: Entry)
    requires AllPlaced(w, true) && e in Timers(w)
    ensures AllPlaced(Remove(w, e), true)
    ensures Timers(Remove(w, e)) == Timers(w) - multiset{e}
  {
    var i := Place(w.elapsed, e.deadline);
    FoundWherePlaced(w, e);
    WithoutTakesOne(w.slots[i], e);
    HeldUpdate(w.slots, i, Without(w.slots[i], e));
    assert multiset(w.slots[i]) == multiset(Without(w.slots[i], e)) + multiset{e};
    Cancel(Timers(Remove(w, e)) + multiset{e}, Timers(w), multiset(Without(w.slots[i], e)));
    forall j, f | 0 <= j < CELLS && f in Remove(w, e).slots[j] ensures f in w.slots[j] {
      assert f in multiset(Without(w.slots[i], e)) ==> f in multiset(w.slots[i]);
    }
  }

  // ----- the sweep ------------------------------------------------------------------

  lemma {:induction false} SplitConserves(entries: seq<Entry>, now: nat, held: seq<Entry>)
    ensures multiset(HoldBack(entries, now, held)) + multiset(Due(entries, now))
         == multiset(held) + multiset(entries)
    ensures forall e :: e in HoldBack(entries, now, held) <==> e in held || (e in entries && e.deadline > now)
    ensures forall e :: e in Due(entries, now) <==> e in entries && e.deadline <= now
    decreases |entries|
  {
    if entries != [] {
      var e := entries[0];
      var later := if e.deadline > now then [e] else [];
      var due := if e.deadline <= now then [e] else [];
      SplitConserves(entries[1..], now, later + held);
      HeadAndTail(entries);
      assert multiset(Due(entries, now)) == multiset(due) + multiset(Due(entries[1..], now));
      var held', rest := multiset(HoldBack(entries, now, held)), multiset(Due(entries[1..], now));
      assert held' + rest == (multiset(later) + multiset(held)) + multiset(entries[1..]);
      assert held' + (multiset(due) + rest) == (held' + rest) + multiset(due);
      assert multiset(later) + multiset(due) == multiset{e};
      assert (multiset(later) + multiset(held) + multiset(entries[1..])) + multiset(due)
          == multiset(held) + ((multiset(later) + multiset(due)) + multiset(entries[1..]));
    }
  }

  ghost predicate SweepOk(s: Sweep, now: nat, strict: bool) {
    && AllPlaced(s.wheel, strict)
    && s.wheel.elapsed <= now
    && (s.wheel.closed ==> NoTimers(s.wheel) && s.held == [])
    && (forall e :: e in s.held ==> now < e.deadline && (strict ==> InHorizon(now, e.deadline)))
    && (forall e :: e in s.fired ==> e.deadline <= now)
  }

  function Contents(s: Sweep): multiset<Entry> {
    Timers(s.wheel) + multiset(s.held) + multiset(s.fired)
  }

  lemma TurnKeeps(s: Sweep, now: nat, strict: bool)
    requires SweepOk(s, now, strict)
    requires NextExpiration(s.wheel).Some? && NextExpiration(s.wheel).value.deadline <= now
    ensures SweepOk(Turn(s, now, NextExpiration(s.wheel).value), now, strict)
  {
    var x := NextExpiration(s.wheel).value;
    var entries := At(s.wheel, x);
    LowestLevelFirst(s.wheel);
    TimeMovesToSlot(s.wheel, strict);
    SplitConserves(entries, now, s.held);
    BlockMonotone(5, s.wheel.elapsed, now);
    assert forall e :: e in entries ==> Placed(s.wheel.elapsed, e, Index(x.level, x.slot), strict);
  }

  lemma TurnConserves(s: Sweep, now: nat, x: Expiration)
    requires x.level < LEVELS && x.slot < SLOTS && At(s.wheel, x) != []
    ensures Contents(Turn(s, now, x)) == Contents(s)
  {
    var entries := At(s.wheel, x);
    SplitConserves(entries, now, s.held);
    EmptyShrinks(s.wheel, x);
    var t := Turn(s, now, x);
    assert multiset(t.fired) == multiset(s.fired) + multiset(Due(entries, now));
    var kept, held, due := Timers(t.wheel), multiset(t.held), multiset(Due(entries, now));
    assert kept + held + (multiset(s.fired) + due) == kept + (held + due) + multiset(s.fired);
    assert kept + (multiset(s.held) + multiset(entries)) == (kept + multiset(entries)) + multiset(s.held);
  }

  /** A turn of the loop leads to where the whole sweep leads. */
  lemma TurnLeadsOn(s: Sweep, now: nat, x: Expiration)
    requires NextExpiration(s.wheel) == Some(x) && x.deadline <= now
    ensures RunSweep(Turn(s, now, x), now) == RunSweep(s, now)
    ensures |Timers(Turn(s, now, x).wheel)| < |Timers(s.wheel)|
  {
    EmptyShrinks(s.wheel, x);
  }

  lemma SweepEnds(s: Sweep, now: nat)
    requires NextExpiration(s.wheel).Some? ==> NextExpiration(s.wheel).value.deadline > now
    ensures RunSweep(s, now) == s
  {
  }

  lemma DrainLeadsOn(w: Wheel, failed: seq<Entry>, x: Expiration)
    requires NextExpiration(w) == Some(x)
    ensures Drain(EmptySlot(w, x), failed + At(w, x)) == Drain(w, failed)
    ensures |Timers(EmptySlot(w, x))| < |Timers(w)|
  {
    EmptyShrinks(w, x);
  }

  lemma DrainEnds(w: Wheel, failed: seq<Entry>)
    requires NextExpiration(w).None?
    ensures Drain(w, failed) == (w, failed) && NoTimers(w)
  {
    LowestLevelFirst(w);
  }

  lemma {:induction false} SweepKeeps(s: Sweep, now: nat, strict: bool)
    requires SweepOk(s, now, strict)
    ensures SweepOk(RunSweep(s, now), now, strict)
    ensures Contents(RunSweep(s, now)) == Contents(s)
    ensures RunSweep(s, now).wheel.closed == s.wheel.closed
    decreases |Timers(s.wheel)|
  {
    var next := NextExpiration(s.wheel);
    if next.Some? && next.value.deadline <= now {
      TurnKeeps(s, now, strict);
      TurnConserves(s, now, next.value);
      EmptyShrinks(s.wheel, next.value);
      SweepKeeps(Turn(s, now, next.value), now, strict);
    }
  }

  lemma {:induction false} InsertAllKeeps(w: Wheel, entries: seq<Entry>, strict: bool)
    requires AllPlaced(w, strict) && (w.closed ==> entries == [])
    requires forall e :: e in entries ==> w.elapsed < e.deadline && (strict ==> InHorizon(w.elapsed, e.deadline))
    ensures AllPlaced(InsertAll(w, entries), strict)
    ensures InsertAll(w, entries).elapsed == w.elapsed && InsertAll(w, entries).closed == w.closed
    ensures Timers(InsertAll(w, entries)) == Timers(w) + multiset(entries)
    decreases |entries|
  {
    if entries != [] {
      InsertKeeps(w, entries[0], strict);
      InsertAllKeeps(Insert(w, entries[0]).0, entries[1..], strict);
      assert entries == [entries[0]] + entries[1..];
    }
  }

  /** `advance` conserves the timers, fires only due ones, and keeps the placement
      invariant, in a sound wheel as well as in an exact one. */
  lemma AdvanceKeeps(w: Wheel, now: nat, strict: bool)
    requires AllPlaced(w, strict) && (w.closed ==> NoTimers(w)) && w.elapsed <= now
    ensures var r := Advance(w, now);
            && AllPlaced(r.wheel, strict)
            && r.wheel.elapsed == now && r.wheel.closed == w.closed
            && (w.closed ==> NoTimers(r.wheel))
            && Timers(r.wheel) + multiset(r.fired) == Timers(w)
            && forall e :: e in r.fired ==> e.deadline <= now
  {
    var s := Sweep(w, [], []);
    var swept := RunSweep(s, now);
    SweepKeeps(s, now, strict);
    TimeMovesFreely(swept.wheel, now, strict);
    InsertAllKeeps(swept.wheel.(elapsed := now), swept.held, strict);
    assert Contents(s) == Timers(w);
  }

  /** In an exact wheel everything that remains is still ahead. */
  lemma AllAhead(w: Wheel, e: Entry)
    requires AllPlaced(w, true) && e in Timers(w)
    ensures w.elapsed < e.deadline
  {
    HeldIffInSlot(w.slots, e);
    var i :| 0 <= i < CELLS && e in w.slots[i];
    assert Placed(w.elapsed, e, i, true);
  }

  /** Between two moves of time the search finds the same slot at the same tick. */
  lemma SearchIsStable(w: Wheel, now: nat)
    requires AllPlaced(w, true) && w.elapsed <= now
    requires NextExpiration(w).Some? ==> now < NextExpiration(w).value.deadline
    ensures NextExpiration(w.(elapsed := now)) == NextExpiration(w)
  {
    var w' := w.(elapsed := now);
    TimeMovesFreely(w, now, true);
    LowestLevelFirst(w);
    LowestLevelFirst(w');
    if NextExpiration(w).Some? {
      var x, x' := NextExpiration(w).value, NextExpiration(w').value;
      var i, i' := Index(x.level, x.slot), Index(x'.level, x'.slot);
      assert w.slots[i] != [] && w.slots[i'] != [];
      var e, e' := w.slots[i][0], w.slots[i'][0];
      assert x.level == x'.level;
      EarliestOverall(w, true, i, e);
      EarliestOverall(w, true, i', e');
      EarliestOverall(w', true, i, e);
      EarliestOverall(w', true, i', e');
      BlockOfStart(x.level, Block(x.level, e.deadline));
      BlockOfStart(x.level, Block(x.level, e'.deadline));
    }
  }

  /** What `advance` returns is what a fresh search would find, also when it does
      not search again. */
  lemma ReturnedExpirationIsFresh(w: Wheel, now: nat)
    requires Exact(w) && w.elapsed <= now
    ensures Advance(w, now).next == NextExpiration(Advance(w, now).wheel)
  {
    var s := Sweep(w, [], []);
    SweepKeeps(s, now, true);
    var swept := RunSweep(s, now);
    if swept.held == [] {
      SearchIsStable(swept.wheel, now);
    }
  }
}
