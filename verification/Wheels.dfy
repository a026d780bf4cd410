/** The timer wheel as the program runs it: levels with an occupancy word and 64
    lists that are updated in place, and the loops over them. */
module Wheels {
  import opened Bags
  import opened Wrappers
  import opened Words
  import opened Ticks
  import WheelSpec
  import opened WheelPlacement
  import opened WheelAdvance
  import WheelCascade

  type Entry = WheelSpec.Entry
  type Expiration = WheelSpec.Expiration
  type Outcome = WheelSpec.Outcome

  class Level {
    const level: nat
    var bitfield: Word
    const slots: array<seq<Entry>>

    /** Bit `s` of the occupancy word is set exactly when slot `s` is not empty. */
    ghost predicate Valid()
      reads this, slots
    {
      && level < LEVELS && slots.Length == SLOTS
      && forall s :: 0 <= s < SLOTS ==> (bitfield[s] <==> slots[s] != [])
    }

    /** The level's slots are its part of the slots of the whole wheel. */
    ghost predicate IsPartOf(all: WheelSpec.Slots)
      requires Valid()
      reads this, slots
    {
      forall s :: 0 <= s < SLOTS ==> all[WheelSpec.Index(level, s)] == slots[s]
    }

    constructor (level: nat)
      requires level < LEVELS
      ensures Valid() && this.level == level && fresh(slots)
      ensures forall s :: 0 <= s < SLOTS ==> slots[s] == []
    {
      this.level := level;
      bitfield := seq(64, _ => false);
      slots := new seq<Entry>[SLOTS](_ => []);
    }

    /** Rotating the occupancy word to the current slot and counting trailing zeros
        finds the first occupied slot from the current one on, going round. */
    method NextOccupiedSlot(now: nat, ghost all: WheelSpec.Slots) returns (slot: Option<nat>)
      requires Valid() && IsPartOf(all)
      ensures slot == WheelSpec.FirstOccupied(all, level, now / SlotRange(level))
    {
      ghost var from := now / SlotRange(level);
      ghost var ahead := FirstOccupiedIsFirst(all, level, from);
      BitsShowOccupancy(all, from, ahead);
      if bitfield == ZERO {
        return None;
      }
      var nowSlot := now / SlotRange(level);
      var occupied := RotateRight(bitfield, nowSlot % U32_END);
      var zeros := TrailingZeros(occupied);
      RotationFindsFirst(bitfield, from, ahead);
      return Some((zeros + nowSlot) % 64);
    }

    lemma BitsShowOccupancy(all: WheelSpec.Slots, from: nat, ahead: nat)
      requires Valid() && IsPartOf(all) && ahead <= SLOTS
      requires forall j :: 0 <= j < ahead ==> EmptyAhead(all, level, from, j)
      requires ahead < SLOTS ==> !EmptyAhead(all, level, from, ahead)
      ensures forall j :: 0 <= j < ahead ==> !BitAround(bitfield, from, j)
      ensures ahead < SLOTS ==> BitAround(bitfield, from, ahead)
      ensures ahead == SLOTS <==> bitfield == ZERO
    {
      forall j | 0 <= j < ahead ensures !BitAround(bitfield, from, j) {
        assert EmptyAhead(all, level, from, j);
      }
      if ahead == SLOTS {
        forall s | 0 <= s < SLOTS ensures !bitfield[s] {
          var j := SlotAhead(all, level, from, s);
        }
      }
    }

    method NextExpiration(ghost w: WheelSpec.Wheel, now: nat) returns (r: Option<Expiration>)
      requires Valid() && IsPartOf(w.slots) && w.elapsed == now
      ensures r == WheelSpec.LevelExpiration(w, level)
    {
      var slot := NextOccupiedSlot(now, w.slots);
      if slot.None? {
        return None;
      }
      var levelRange, slotRange := LevelRange(level), SlotRange(level);
      var levelStart := now - now % levelRange;
      var deadline := levelStart + slot.value * slotRange;
      if deadline <= now {
        deadline := deadline + levelRange;
      }
      assert deadline == WheelSpec.SlotDeadline(now, level, slot.value);
      return Some(WheelSpec.Expiration(level, slot.value, deadline));
    }

    method AddEntry(e: Entry)
      requires Valid()
      modifies this, slots
      ensures Valid()
      ensures slots[..] == old(slots[..])[SlotFor(e.deadline, level) := [e] + old(slots[SlotFor(e.deadline, level)])]
    {
      var slot := SlotFor(e.deadline, level);
      slots[slot] := [e] + slots[slot];
      bitfield := Or(bitfield, OneBit(slot));
    }

    /** The item must be in the list it is removed from. */
    method RemoveEntry(e: Entry)
      requires Valid() && e in slots[SlotFor(e.deadline, level)]
      modifies this, slots
      ensures Valid()
      ensures slots[..] == old(slots[..])[SlotFor(e.deadline, level) :=
                Without(old(slots[SlotFor(e.deadline, level)]), e)]
    {
      var slot := SlotFor(e.deadline, level);
      slots[slot] := Without(slots[slot], e);
      if slots[slot] == [] {
        assert bitfield[slot]; // not yet marked as unoccupied
        bitfield := Xor(bitfield, OneBit(slot));
      }
    }

    method TakeSlot(slot: nat) returns (entries: seq<Entry>)
      requires Valid() && slot < SLOTS
      modifies this, slots
      ensures Valid() && entries == old(slots[slot])
      ensures slots[..] == old(slots[..])[slot := []]
    {
      bitfield := AndNot(bitfield, OneBit(slot));
      entries := slots[slot];
      slots[slot] := [];
    }
  }

  class Wheels {
    var elapsed: nat
    var shutdown: bool
    const levels: seq<Level>
    ghost const repr: set<object>

    ghost predicate Shape()
      reads repr
    {
      && |levels| == LEVELS
      && this !in repr
      && (forall i :: 0 <= i < LEVELS ==> levels[i] in repr && levels[i].slots in repr)
      && (forall i :: 0 <= i < LEVELS ==> levels[i].level == i && levels[i].Valid())
      && (forall i, j :: 0 <= i < j < LEVELS ==> levels[i] != levels[j] && levels[i].slots != levels[j].slots)
    }

    ghost function AllSlots(): WheelSpec.Slots
      requires Shape()
      reads repr
    {
      seq(WheelSpec.CELLS, k requires 0 <= k < WheelSpec.CELLS && Shape() reads repr =>
            levels[k / SLOTS].slots[k % SLOTS])
    }

    /** The wheel as a value. */
    ghost function View(): WheelSpec.Wheel
      requires Shape()
      reads this, repr
    {
      WheelSpec.Wheel(elapsed, shutdown, AllSlots())
    }

    /** All times are 64-bit values. */
    ghost predicate Fits(w: WheelSpec.Wheel) {
      && w.elapsed < U64_END
      && forall i, e :: 0 <= i < WheelSpec.CELLS && e in w.slots[i] ==> e.deadline < U64_END
    }

    ghost predicate Valid()
      reads this, repr
    {
      Shape() && Sound(View()) && Fits(View())
    }

    constructor ()
      ensures Valid() && fresh(repr) && View() == WheelSpec.EmptyWheel
    {
      var ls: seq<Level> := [];
      ghost var rs: set<object> := {};
      for i := 0 to LEVELS
        invariant |ls| == i && fresh(rs)
        invariant forall o :: o in rs ==> o is Level || o is array<seq<Entry>>
        invariant forall j :: 0 <= j < i ==> ls[j] in rs && ls[j].slots in rs
        invariant forall j :: 0 <= j < i ==> ls[j].level == j && ls[j].Valid()
        invariant forall j, s :: 0 <= j < i && 0 <= s < SLOTS ==> ls[j].slots[s] == []
        invariant forall j, k :: 0 <= j < k < i ==> ls[j] != ls[k] && ls[j].slots != ls[k].slots
      {
        var l := new Level(i);
        ls, rs := ls + [l], rs + {l, l.slots};
      }
      levels, repr := ls, rs;
      elapsed, shutdown := 0, false;
      new;
      assert View().slots == WheelSpec.EmptyWheel.slots;
    }

    method LevelNext(level: nat, ghost w: WheelSpec.Wheel) returns (r: Option<Expiration>)
      requires Shape() && level < LEVELS && w == View()
      ensures r == WheelSpec.LevelExpiration(w, level)
    {
      r := levels[level].NextExpiration(w, elapsed);
    }

    /** Searches the levels from the lowest up. */
    method NextExpiration() returns (r: Option<Expiration>)
      requires Shape()
      ensures r == WheelSpec.NextExpiration(View())
    {
      ghost var w := View();
      for level := 0 to LEVELS
        invariant WheelSpec.NextExpiration(w) == WheelSpec.ExpirationFrom(w, level)
      {
        r := LevelNext(level, w);
        if r.Some? {
          return r;
        }
      }
      return None;
    }

    /** Time only moves forward. */
    method SetElapsed(when: nat)
      requires elapsed <= when
      modifies this`elapsed
      ensures elapsed == when
    {
      if when > elapsed {
        elapsed := when;
      }
    }

    method TakeEntries(x: Expiration) returns (entries: seq<Entry>)
      requires Shape() && x.level < LEVELS && x.slot < SLOTS
      modifies repr
      ensures Shape() && entries == WheelSpec.At(old(View()), x)
      ensures View() == WheelSpec.EmptySlot(old(View()), x)
    {
      entries := levels[x.level].TakeSlot(x.slot);
      assert View().slots == WheelSpec.EmptySlot(old(View()), x).slots;
    }

    method Insert(e: Entry) returns (outcome: Outcome)
      requires Shape() && elapsed < U64_END && e.deadline < U64_END
      modifies repr
      ensures Shape() && (View(), outcome) == WheelSpec.Insert(old(View()), e)
    {
      if shutdown {
        return WheelSpec.Refused;
      }
      if e.deadline <= elapsed {
        return WheelSpec.Fired;
      }
      WheelForIsLevelFor(elapsed, e.deadline);
      var wheel := WheelFor(elapsed, e.deadline);
      levels[wheel].AddEntry(e);
      assert View().slots == WheelSpec.Insert(old(View()), e).0.slots;
      return WheelSpec.Registered;
    }

    /** A timer of zero length fires at once; another is registered at its deadline. */
    method Add(id: nat, nanos: nat) returns (outcome: Outcome)
      requires Valid()
      requires WheelSpec.Expiry(elapsed, nanos) < U64_END // the sum does not overflow
      modifies repr
      ensures Valid() && (View(), outcome) == WheelSpec.Add(old(View()), id, nanos)
      ensures nanos > 0 ==>
                var deadline := elapsed + nanos / 1_000_000 % 0x1_0000_0000_0000_0000;
                (View(), outcome) == WheelSpec.Insert(old(View()), WheelSpec.Entry(id, deadline))
    {
      if nanos == 0 {
        return WheelSpec.Fired;
      }
      AddKeepsSound(View(), id, nanos);
      var expiration := elapsed + nanos / WheelSpec.NANOS_PER_MILLI % U64_END;
      outcome := Insert(WheelSpec.Entry(id, expiration));
    }

    /** The timer must be where `remove` looks for it, which an exact wheel ensures. */
    method Remove(e: Entry)
      requires Valid() && e in View().slots[WheelSpec.Place(elapsed, e.deadline)]
      modifies repr
      ensures Valid() && View() == WheelSpec.Remove(old(View()), e)
    {
      WheelForIsLevelFor(elapsed, e.deadline);
      var wheel := WheelFor(elapsed, e.deadline);
      levels[wheel].RemoveEntry(e);
      assert View().slots == WheelSpec.Remove(old(View()), e).slots;
      RemoveKeepsSound(old(View()), e);
    }

    /** Sorts the timers of a taken slot: the due ones fire, the others go to the
        front of `pending`, which never happens to those of the lowest level. */
    method SortEntries(x: Expiration, entries: seq<Entry>, now: nat, held: seq<Entry>, fired: seq<Entry>)
      returns (pending: seq<Entry>, woken: seq<Entry>)
      requires forall e :: e in entries && e.deadline > now ==> x.level != 0
      ensures pending == WheelSpec.HoldBack(entries, now, held)
      ensures woken == fired + WheelSpec.Due(entries, now)
    {
      pending, woken := held, fired;
      var rest := entries;
      while rest != []
        invariant WheelSpec.HoldBack(entries, now, held) == WheelSpec.HoldBack(rest, now, pending)
        invariant fired + WheelSpec.Due(entries, now) == woken + WheelSpec.Due(rest, now)
        invariant forall e :: e in rest ==> e in entries
        decreases |rest|
      {
        var entry := rest[0];
        SortStep(rest, now, pending);
        rest := rest[1..];
        if entry.deadline > now {
          assert x.level != 0;
          pending := [entry] + pending;
        } else {
          woken := woken + [entry];
        }
      }
    }

    /** One turn of the loop: takes the due slot, sorts its timers and moves time to it. */
    method TurnOver(x: Expiration, now: nat, held: seq<Entry>, fired: seq<Entry>)
      returns (pending: seq<Entry>, woken: seq<Entry>)
      requires Shape() && Fits(View()) && AllFit(held)
      requires SweepOk(WheelSpec.Sweep(View(), held, fired), now, false)
      requires WheelSpec.NextExpiration(View()) == Some(x) && x.deadline <= now < U64_END
      modifies this`elapsed, repr
      ensures Shape() && Fits(View()) && AllFit(pending)
      ensures SweepOk(WheelSpec.Sweep(View(), pending, woken), now, false)
      ensures WheelSpec.Sweep(View(), pending, woken)
           == WheelSpec.Turn(WheelSpec.Sweep(old(View()), held, fired), now, x)
    {
      TurnKeeps(WheelSpec.Sweep(View(), held, fired), now, false);
      SplitConserves(WheelSpec.At(View(), x), now, held);
      NeverFromLowest(View(), x, now);
      var entries := TakeEntries(x);
      pending, woken := SortEntries(x, entries, now, held, fired);
      SetElapsed(x.deadline);
      assert View() == WheelSpec.EmptySlot(old(View()), x).(elapsed := x.deadline);
    }

    /** A turn, and the search for the next due slot. */
    method TurnAndSearch(ghost s: WheelSpec.Sweep, x: Expiration, now: nat, held: seq<Entry>, fired: seq<Entry>)
      returns (pending: seq<Entry>, woken: seq<Entry>, next: Option<Expiration>)
      requires Shape() && Fits(View()) && AllFit(held)
      requires s == WheelSpec.Sweep(View(), held, fired) && SweepOk(s, now, false)
      requires WheelSpec.NextExpiration(s.wheel) == Some(x) && x.deadline <= now < U64_END
      modifies this`elapsed, repr
      ensures Shape() && Fits(View()) && AllFit(pending)
      ensures WheelSpec.Sweep(View(), pending, woken) == WheelSpec.Turn(s, now, x)
      ensures next == WheelSpec.NextExpiration(View()) && SweepOk(WheelSpec.Turn(s, now, x), now, false)
    {
      pending, woken := TurnOver(x, now, held, fired);
      next := NextExpiration();
    }

    /** The loop over due slots. */
    method SweepDue(now: nat)
      returns (pending: seq<Entry>, woken: seq<Entry>, next: Option<Expiration>)
      requires Valid() && elapsed <= now < U64_END
      modifies this`elapsed, repr
      ensures Shape() && Fits(View()) && AllFit(pending)
      ensures WheelSpec.Sweep(View(), pending, woken)
           == WheelSpec.RunSweep(WheelSpec.Sweep(old(View()), [], []), now)
      ensures next == WheelSpec.NextExpiration(View())
    {
      ghost var s := WheelSpec.Sweep(View(), [], []);
      ghost var swept := WheelSpec.RunSweep(s, now);
      pending, woken := [], [];
      next := NextExpiration();
      while next.Some? && next.value.deadline <= now
        invariant Shape() && Fits(View()) && AllFit(pending)
        invariant s == WheelSpec.Sweep(View(), pending, woken) && SweepOk(s, now, false)
        invariant next == WheelSpec.NextExpiration(s.wheel)
        invariant swept == WheelSpec.RunSweep(s, now)
        decreases |WheelSpec.Timers(s.wheel)|
      {
        var x := next.value;
        TurnLeadsOn(s, now, x);
        pending, woken, next := TurnAndSearch(s, x, now, pending, woken);
        s := WheelSpec.Turn(s, now, x);
      }
      SweepEnds(s, now);
    }

    /** Fires what is due, holds back what is not, and moves time along. */
    method Advance(now: nat) returns (fired: nat, next: Option<Expiration>, woken: seq<Entry>)
      requires Valid() && elapsed <= now < U64_END
      modifies this`elapsed, repr
      ensures Valid()
      ensures fired == |woken|
      ensures WheelSpec.Advanced(View(), woken, next) == WheelSpec.Advance(old(View()), now)
    {
      AdvanceKeeps(View(), now, false);
      SweepKeeps(WheelSpec.Sweep(View(), [], []), now, false);
      var pending;
      pending, woken, next := SweepDue(now);
      fired := |woken|;
      Reinsert(now, pending);
      if pending != [] {
        next := NextExpiration();
      }
    }

    /** Time moves to `now`, and the timers held back are inserted again. */
    method Reinsert(now: nat, pending: seq<Entry>)
      requires Shape() && Fits(View()) && AllFit(pending) && elapsed <= now < U64_END
      modifies this`elapsed, repr
      ensures Shape() && Fits(View())
      ensures View() == WheelSpec.InsertAll(old(View()).(elapsed := now), pending)
    {
      ghost var swept := View();
      SetElapsed(now);
      assert View() == swept.(elapsed := now);
      PutBack(pending);
    }

    ghost predicate AllFit(entries: seq<Entry>) {
      forall e :: e in entries ==> e.deadline < U64_END
    }

    /** Timers held back are inserted again, relative to the new time. */
    method PutBack(pending: seq<Entry>)
      requires Shape() && Fits(View()) && AllFit(pending)
      modifies repr
      ensures Shape() && Fits(View())
      ensures View() == WheelSpec.InsertAll(old(View()), pending)
    {
      for i := 0 to |pending|
        invariant Shape() && Fits(View())
        invariant WheelSpec.InsertAll(old(View()), pending) == WheelSpec.InsertAll(View(), pending[i..])
      {
        assert pending[i..][1..] == pending[i + 1..];
        var outcome := Insert(pending[i]);
      }
    }

    method Close()
      requires Shape()
      modifies this`shutdown
      ensures Shape() && View() == old(View()).(closed := true)
    {
      shutdown := true;
    }

    /** Fails every timer that is still registered. */
    method Shutdown() returns (failed: seq<Entry>)
      requires Valid()
      modifies this`shutdown, repr
      ensures Valid() && (View(), failed) == WheelSpec.Shutdown(old(View()))
    {
      Close();
      failed := [];
      ghost var w := View();
      ghost var drained := WheelSpec.Drain(w, []);
      var next := NextExpiration();
      while next.Some?
        invariant Shape() && Fits(w) && w == View()
        invariant next == WheelSpec.NextExpiration(w)
        invariant drained == WheelSpec.Drain(w, failed)
        decreases |WheelSpec.Timers(w)|
      {
        DrainLeadsOn(w, failed, next.value);
        var entries := TakeEntries(next.value);
        w := WheelSpec.EmptySlot(w, next.value);
        failed := failed + entries;
        next := NextExpiration();
      }
      DrainEnds(w, failed);
    }
  }

  lemma SortStep(entries: seq<Entry>, now: nat, held: seq<Entry>)
    requires entries != []
    ensures WheelSpec.HoldBack(entries, now, held)
         == WheelSpec.HoldBack(entries[1..], now, if entries[0].deadline > now then [entries[0]] + held else held)
    ensures WheelSpec.Due(entries, now)
         == (if entries[0].deadline > now then [] else [entries[0]]) + WheelSpec.Due(entries[1..], now)
  {
    assert [] + held == held;
  }

  /** The lowest level is never rescheduled. */
  lemma NeverFromLowest(w: WheelSpec.Wheel, x: Expiration, now: nat)
    requires AllPlaced(w, false) && WheelSpec.NextExpiration(w) == Some(x) && x.deadline <= now
    ensures forall e :: e in WheelSpec.At(w, x) && e.deadline > now ==> x.level != 0
  {
    forall e | e in WheelSpec.At(w, x) && e.deadline > now ensures x.level != 0 {
      if x.level < 5 {
        WheelCascade.HeldBackMovesDown(w, now, e, false);
      }
    }
  }

  lemma RemoveKeepsSound(w: WheelSpec.Wheel, e: Entry)
    requires Sound(w) && e in w.slots[WheelSpec.Place(w.elapsed, e.deadline)]
    ensures Sound(WheelSpec.Remove(w, e))
    ensures forall i, f :: 0 <= i < WheelSpec.CELLS && f in WheelSpec.Remove(w, e).slots[i] ==> f in w.slots[i]
  {
    var i := WheelSpec.Place(w.elapsed, e.deadline);
    WithoutTakesOne(w.slots[i], e);
    forall j, f | 0 <= j < WheelSpec.CELLS && f in WheelSpec.Remove(w, e).slots[j] ensures f in w.slots[j] {
      assert f in multiset(Without(w.slots[i], e)) ==> f in multiset(w.slots[i]);
    }
  }
}
