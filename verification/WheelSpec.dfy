/** The timer wheel as a value: six levels of 64 slots, laid out as one sequence
    of 384 slots with slot `s` of level `l` at index `64 * l + s`.

    The functions here say what each operation of the program does to the wheel.
    The class `Wheels` is proved against them, and the modules `WheelPlacement`,
    `WheelRefinement` and `WheelHorizon` prove what they amount to. */
module WheelSpec {
  import opened Bags
  import opened Wrappers
  import opened Ticks

  datatype Entry = Entry(id: nat, deadline: nat)

  /** A due slot: where it is, and the tick at which it starts. */
  datatype Expiration = Expiration(level: nat, slot: nat, deadline: nat)

  const CELLS := 384
  const NANOS_PER_MILLI := 1_000_000

  type Slots = s: seq<seq<Entry>> | |s| == CELLS witness seq(CELLS, _ => [])

  datatype Wheel = Wheel(elapsed: nat, closed: bool, slots: Slots)

  const EmptyWheel := Wheel(0, false, seq(CELLS, _ => []))

  function Index(level: nat, slot: nat): (i: nat)
    requires level < LEVELS && slot < SLOTS
    ensures i < CELLS && i / SLOTS == level && i % SLOTS == slot
  {
    SLOTS * level + slot
  }

  /** Everything a list of slots holds. */
  function Held(slots: seq<seq<Entry>>): multiset<Entry> {
    if slots == [] then multiset{} else multiset(slots[0]) + Held(slots[1..])
  }

  function Timers(w: Wheel): multiset<Entry> {
    Held(w.slots)
  }

  // ----- finding the next due slot --------------------------------------------------

  /** How many empty slots a list of slots starts with. */
  function LeadingEmpty(ring: seq<seq<Entry>>): (n: nat)
    ensures n <= |ring|
    ensures n < |ring| ==> ring[n] != []
    ensures forall j :: 0 <= j < n ==> ring[j] == []
  {
    if ring == [] || ring[0] != [] then 0 else 1 + LeadingEmpty(ring[1..])
  }

  /** The slots of a level, going round from slot `from`. */
  function Around(slots: Slots, level: nat, from: nat): (ring: seq<seq<Entry>>)
    requires level < LEVELS
    ensures |ring| == SLOTS
  {
    seq(SLOTS, j requires 0 <= j < SLOTS => slots[Index(level, (from + j) % SLOTS)])
  }

  /** The first non-empty slot of a level, going round from slot `from`. */
  function FirstOccupied(slots: Slots, level: nat, from: nat): (r: Option<nat>)
    requires level < LEVELS
    ensures r.Some? ==> r.value < SLOTS && slots[Index(level, r.value)] != []
  {
    var ahead := LeadingEmpty(Around(slots, level, from));
    if ahead == SLOTS then None else Some((from + ahead) % SLOTS)
  }

  /** The tick at which a slot of a level next starts; a slot "before" the current
      time belongs to the next rotation. */
  function SlotDeadline(now: nat, level: nat, slot: nat): (deadline: nat)
    ensures deadline > now
  {
    var levelStart := now - now % LevelRange(level);
    var deadline := levelStart + slot * SlotRange(level);
    if deadline <= now then deadline + LevelRange(level) else deadline
  }

  function LevelExpiration(w: Wheel, level: nat): (r: Option<Expiration>)
    requires level < LEVELS
    ensures r.Some? ==> r.value.level == level && r.value.slot < SLOTS
    ensures r.Some? ==> w.slots[Index(level, r.value.slot)] != []
    ensures r.Some? ==> r.value.deadline > w.elapsed
  {
    match FirstOccupied(w.slots, level, w.elapsed / SlotRange(level))
    case None => None
    case Some(slot) => Some(Expiration(level, slot, SlotDeadline(w.elapsed, level, slot)))
  }

  /** The search from level `level` upwards: the first level with an occupied slot. */
  function ExpirationFrom(w: Wheel, level: nat): (r: Option<Expiration>)
    requires level <= LEVELS
    ensures r.Some? ==> level <= r.value.level < LEVELS && r.value.slot < SLOTS
    ensures r.Some? ==> At(w, r.value) != [] && r.value.deadline > w.elapsed
    decreases LEVELS - level
  {
    if level == LEVELS then None
    else if LevelExpiration(w, level).Some? then LevelExpiration(w, level)
    else ExpirationFrom(w, level + 1)
  }

  function NextExpiration(w: Wheel): (r: Option<Expiration>)
    ensures r.Some? ==> r.value.level < LEVELS && r.value.slot < SLOTS
    ensures r.Some? ==> At(w, r.value) != [] && r.value.deadline > w.elapsed
  {
    ExpirationFrom(w, 0)
  }

  function At(w: Wheel, x: Expiration): seq<Entry>
    requires x.level < LEVELS && x.slot < SLOTS
  {
    w.slots[Index(x.level, x.slot)]
  }

  // ----- inserting and removing -----------------------------------------------------

  /** What became of a timer handed to the wheel. */
  datatype Outcome = Registered | Fired | Refused

  /** Where a timer goes, given the current time. */
  function Place(elapsed: nat, deadline: nat): (i: nat)
    ensures i < CELLS
  {
    var level := LevelFor(elapsed, deadline);
    Index(level, SlotFor(deadline, level))
  }

  function Insert(w: Wheel, e: Entry): (Wheel, Outcome) {
    if w.closed then (w, Refused)
    else if e.deadline <= w.elapsed then (w, Fired)
    else
      var i := Place(w.elapsed, e.deadline);
      (w.(slots := w.slots[i := [e] + w.slots[i]]), Registered)
  }

  /** The deadline of a timer of `nanos` nanoseconds: whole milliseconds, as a u64. */
  function Expiry(elapsed: nat, nanos: nat): nat {
    elapsed + nanos / NANOS_PER_MILLI % U64_END
  }

  /** A zero duration fires at once, even when the wheel is shut down. */
  function Add(w: Wheel, id: nat, nanos: nat): (Wheel, Outcome) {
    if nanos == 0 then (w, Fired) else Insert(w, Entry(id, Expiry(w.elapsed, nanos)))
  }

  /** Removal looks where the timer would go now, not where it once went. */
  function Remove(w: Wheel, e: Entry): Wheel {
    var i := Place(w.elapsed, e.deadline);
    w.(slots := w.slots[i := Without(w.slots[i], e)])
  }

  // ----- advancing ------------------------------------------------------------------

  /** The timers of a slot that are due, in order. */
  function Due(entries: seq<Entry>, now: nat): seq<Entry> {
    if entries == [] then []
    else (if entries[0].deadline <= now then [entries[0]] else []) + Due(entries[1..], now)
  }

  /** The timers of a slot that are not due, each pushed on the front of `held`. */
  function HoldBack(entries: seq<Entry>, now: nat, held: seq<Entry>): seq<Entry> {
    if entries == [] then held
    else HoldBack(entries[1..], now, (if entries[0].deadline > now then [entries[0]] else []) + held)
  }

  /** The state of the sweep: the wheel, the timers held back, the timers fired. */
  datatype Sweep = Sweep(wheel: Wheel, held: seq<Entry>, fired: seq<Entry>)

  function EmptySlot(w: Wheel, x: Expiration): Wheel
    requires x.level < LEVELS && x.slot < SLOTS
  {
    w.(slots := w.slots[Index(x.level, x.slot) := []])
  }

  /** One turn of the loop: take a due slot, sort its timers, move the time to it. */
  function Turn(s: Sweep, now: nat, x: Expiration): Sweep
    requires x.level < LEVELS && x.slot < SLOTS
  {
    var entries := At(s.wheel, x);
    Sweep(EmptySlot(s.wheel, x).(elapsed := x.deadline),
          HoldBack(entries, now, s.held),
          s.fired + Due(entries, now))
  }

  function RunSweep(s: Sweep, now: nat): (r: Sweep)
    ensures NextExpiration(r.wheel).Some? ==> NextExpiration(r.wheel).value.deadline > now
    decreases |Timers(s.wheel)|
  {
    var next := NextExpiration(s.wheel);
    if next.Some? && next.value.deadline <= now then
      EmptyShrinks(s.wheel, next.value);
      RunSweep(Turn(s, now, next.value), now)
    else s
  }

  function InsertAll(w: Wheel, entries: seq<Entry>): Wheel
    decreases |entries|
  {
    if entries == [] then w else InsertAll(Insert(w, entries[0]).0, entries[1..])
  }

  datatype Advanced = Advanced(wheel: Wheel, fired: seq<Entry>, next: Option<Expiration>)

  function Advance(w: Wheel, now: nat): Advanced {
    var swept := RunSweep(Sweep(w, [], []), now);
    var wheel := InsertAll(swept.wheel.(elapsed := now), swept.held);
    // the search is repeated only when timers were put back
    var next := NextExpiration(if swept.held == [] then swept.wheel else wheel);
    Advanced(wheel, swept.fired, next)
  }

  /** Shutting down takes every slot and fails its timers. */
  function Drain(w: Wheel, failed: seq<Entry>): (r: (Wheel, seq<Entry>))
    ensures NextExpiration(r.0).None?
    decreases |Timers(w)|
  {
    var next := NextExpiration(w);
    if next.None? then (w, failed)
    else
      EmptyShrinks(w, next.value);
      Drain(EmptySlot(w, next.value), failed + At(w, next.value))
  }

  function Shutdown(w: Wheel): (Wheel, seq<Entry>) {
    Drain(w.(closed := true), [])
  }

  // ----- what the slots hold --------------------------------------------------------

  lemma SumShift(a: multiset<Entry>, b: multiset<Entry>, c: multiset<Entry>,
                 p: multiset<Entry>, q: multiset<Entry>)
    requires b + c == p + q
    ensures (a + b) + c == (a + p) + q
  {
    assert (a + b) + c == a + (b + c);
    assert (a + p) + q == a + (p + q);
  }

  lemma {:induction false} HeldUpdate(slots: seq<seq<Entry>>, i: nat, entries: seq<Entry>)
    requires i < |slots|
    ensures Held(slots[i := entries]) + multiset(slots[i]) == Held(slots) + multiset(entries)
  {
    if i == 0 {
      assert slots[i := entries][1..] == slots[1..];
    } else {
      HeldUpdate(slots[1..], i - 1, entries);
      assert slots[i := entries][1..] == slots[1..][i - 1 := entries];
      var rest := slots[1..];
      SumShift(multiset(slots[0]), Held(rest[i - 1 := entries]), multiset(rest[i - 1]),
               Held(rest), multiset(entries));
      assert slots[i] == rest[i - 1];
    }
  }

  lemma {:induction false} HeldIffInSlot(slots: seq<seq<Entry>>, e: Entry)
    ensures e in Held(slots) <==> exists i :: 0 <= i < |slots| && e in slots[i]
  {
    if slots != [] {
      HeldIffInSlot(slots[1..], e);
      if e in Held(slots[1..]) {
        var i :| 0 <= i < |slots[1..]| && e in slots[1..][i];
        assert e in slots[i + 1];
      }
      if i :| 0 <= i < |slots| && e in slots[i] {
        assert i > 0 ==> slots[1..][i - 1] == slots[i];
      }
    }
  }

  lemma EmptyShrinks(w: Wheel, x: Expiration)
    requires x.level < LEVELS && x.slot < SLOTS && At(w, x) != []
    ensures Timers(EmptySlot(w, x)) + multiset(At(w, x)) == Timers(w)
    ensures |Timers(EmptySlot(w, x))| < |Timers(w)|
  {
    HeldUpdate(w.slots, Index(x.level, x.slot), []);
    assert Timers(EmptySlot(w, x)) + multiset(At(w, x)) == Timers(w);
    assert |multiset(At(w, x))| == |At(w, x)|;
  }
}
