/** The slot and level arithmetic of the timer wheel.

    The program computes levels with XOR, a mask, a cap and a leading-zero
    count.  `LevelFor` is the arithmetic rule those bit operations stand for;
    `WheelForIsLevelFor` proves the two equal on all 64-bit times. */
module Ticks {
  import opened Words

  const LEVELS := 6
  const SLOTS := 64
  const MAX_DURATION := 0xF_FFFF_FFFF // 2^36 - 1
  const U64_END := 0x1_0000_0000_0000_0000

  /** Ticks covered by one slot of a level: `64^level`. */
  function SlotRange(level: nat): (r: nat)
    ensures r >= 1
  {
    if level == 0 then 1 else SLOTS * SlotRange(level - 1)
  }

  /** Ticks covered by one rotation of a level. */
  function LevelRange(level: nat): nat {
    SLOTS * SlotRange(level)
  }

  /** The slot of a time at a level: its base-64 digit number `level`. */
  function SlotFor(when: nat, level: nat): (slot: nat)
    ensures slot < SLOTS
  {
    when / SlotRange(level) % SLOTS
  }

  /** Which slot-sized block of `level` a time lies in, counted from time 0. */
  function Block(level: nat, t: nat): nat {
    if level == 0 then t else Block(level - 1, t) / SLOTS
  }

  /** Both times lie in the same block of a level. */
  predicate SameBlock(level: nat, s: nat, t: nat) {
    Block(level, s) == Block(level, t)
  }

  /** The arithmetic placement rule: the least level whose rotation contains
      both times, and the top level when none does. */
  function LevelFor(elapsed: nat, when: nat): (level: nat)
    ensures level < LEVELS
    ensures level == 5 || SameBlock(level + 1, elapsed, when)
    ensures forall l :: 1 <= l <= level ==> !SameBlock(l, elapsed, when)
  {
    if SameBlock(1, elapsed, when) then 0
    else if SameBlock(2, elapsed, when) then 1
    else if SameBlock(3, elapsed, when) then 2
    else if SameBlock(4, elapsed, when) then 3
    else if SameBlock(5, elapsed, when) then 4
    else 5
  }

  /** The masked word: the bits in which the two times differ, and the six low ones. */
  function Masked(elapsed: nat, when: nat): Word {
    Or(Xor(Word64(elapsed), Word64(when)), Word64(SLOTS - 1))
  }

  /** The program's own computation of the level, on machine words. */
  function WheelFor(elapsed: nat, when: nat): int {
    var masked := Masked(elapsed, when);
    // times too far apart are fudged into the top level
    var capped := if Value(masked) >= MAX_DURATION then Word64(MAX_DURATION - 1) else masked;
    var significant := 63 - LeadingZeros(capped);
    significant / LEVELS
  }

  // ----- blocks ---------------------------------------------------------------------

  lemma DivisionIsUnique(t: nat, p: nat, q: nat, r: nat)
    requires p >= 1 && t == p * q + r && r < p
    ensures t / p == q
  {
    var q', r' := t / p, t % p;
    assert t == p * q' + r';
    assert q' < q ==> p * (q' + 1) <= p * q;
    assert q < q' ==> p * (q + 1) <= p * q';
  }

  lemma ScaledRemainder(p: nat, a: nat, b: nat, r: nat)
    requires r < p && b < SLOTS
    ensures 0 <= p * b + r < SLOTS * p
    ensures p * (SLOTS * a + b) == (SLOTS * p) * a + p * b
  {
    var c := SLOTS - 1 - b;
    assert p * b + p * c == p * (b + c) == p * (SLOTS - 1);
    assert p * c >= 0;
    assert p * (SLOTS * a + b) == p * (SLOTS * a) + p * b;
    assert p * (SLOTS * a) == (SLOTS * p) * a;
  }

  lemma QuotientOfQuotient(t: nat, p: nat)
    requires p >= 1
    ensures t / (SLOTS * p) == t / p / SLOTS
  {
    var q, r := t / p, t % p;
    assert t == p * q + r;
    ScaledRemainder(p, q / SLOTS, q % SLOTS, r);
    DivisionIsUnique(t, SLOTS * p, q / SLOTS, p * (q % SLOTS) + r);
  }

  lemma {:induction false} BlockIsQuotient(level: nat, t: nat)
    ensures Block(level, t) == t / SlotRange(level)
  {
    if level > 0 {
      BlockIsQuotient(level - 1, t);
      QuotientOfQuotient(t, SlotRange(level - 1));
    }
  }

  lemma SlotIsBlockDigit(when: nat, level: nat)
    ensures SlotFor(when, level) == Block(level, when) % SLOTS
  {
    BlockIsQuotient(level, when);
  }

  lemma {:induction false} BlockMonotone(level: nat, s: nat, t: nat)
    requires s <= t
    ensures Block(level, s) <= Block(level, t)
  {
    if level > 0 {
      BlockMonotone(level - 1, s, t);
    }
  }

  /** Times in the same block of a level are in the same block of every higher one. */
  lemma {:induction false} SameBlockAbove(low: nat, high: nat, s: nat, t: nat)
    requires low <= high
    requires Block(low, s) == Block(low, t)
    ensures Block(high, s) == Block(high, t)
    decreases high
  {
    if low < high {
      SameBlockAbove(low, high - 1, s, t);
    }
  }

  /** The first tick of block number `b` of a level. */
  function BlockStart(level: nat, b: nat): nat {
    b * SlotRange(level)
  }

  lemma BlockBounds(level: nat, t: nat)
    ensures BlockStart(level, Block(level, t)) <= t < BlockStart(level, Block(level, t) + 1)
  {
    BlockIsQuotient(level, t);
    var p := SlotRange(level);
    assert t == p * (t / p) + t % p;
    assert (t / p + 1) * p == p * (t / p) + p;
  }

  lemma BlockOfStart(level: nat, b: nat)
    ensures Block(level, BlockStart(level, b)) == b
  {
    BlockIsQuotient(level, BlockStart(level, b));
    DivisionIsUnique(BlockStart(level, b), SlotRange(level), b, 0);
  }

  lemma BlockStartMonotone(level: nat, a: nat, b: nat)
    requires a <= b
    ensures BlockStart(level, a) <= BlockStart(level, b)
  {
    assert a * SlotRange(level) <= b * SlotRange(level);
  }

  /** The rotation of a level that contains `now` starts at a block of the level
      whose number is a multiple of 64. */
  lemma RotationStart(level: nat, now: nat)
    ensures now - now % LevelRange(level) == BlockStart(level, Block(level + 1, now) * SLOTS)
  {
    BlockIsQuotient(level + 1, now);
    var p := LevelRange(level);
    assert p == SlotRange(level + 1);
    var q := now / p;
    assert now == p * q + now % p;
    assert q * SLOTS * SlotRange(level) == p * q;
  }

  // ----- levels ---------------------------------------------------------------------

  lemma LevelIsLeast(elapsed: nat, when: nat, level: nat)
    requires level < LEVELS
    requires level == 5 || SameBlock(level + 1, elapsed, when)
    requires level == 0 || !SameBlock(level, elapsed, when)
    ensures LevelFor(elapsed, when) == level
  {
    var l := LevelFor(elapsed, when);
    if l < level {
      SameBlockAbove(l + 1, level, elapsed, when);
    }
  }

  /** While time moves towards a deadline, the level of the deadline never rises. */
  lemma LevelNeverRises(elapsed: nat, later: nat, when: nat)
    requires elapsed <= later <= when
    ensures LevelFor(later, when) <= LevelFor(elapsed, when)
  {
    var l := LevelFor(elapsed, when);
    if l < 5 {
      BlockMonotone(l + 1, elapsed, later);
      BlockMonotone(l + 1, later, when);
      assert SameBlock(l + 1, later, when);
    }
  }

  // ----- the bit computation of the level ---------------------------------------------

  lemma {:induction false} BitsAbove(level: nat, x: nat)
    requires level <= 10
    ensures |Word64(x)[6 * level..]| == 64 - 6 * level
    ensures Word64(x)[6 * level..] == Bits(64 - 6 * level, Block(level, x))
  {
    if level > 0 {
      BitsAbove(level - 1, x);
      var n := 64 - 6 * (level - 1);
      DropSix(n, Block(level - 1, x));
      assert Word64(x)[6 * level..] == Word64(x)[6 * (level - 1)..][6..];
    }
  }

  lemma Pow2SixMore(n: nat)
    ensures Pow2(n + 6) == 64 * Pow2(n)
  {
    assert Pow2(n + 2) == 2 * Pow2(n + 1) == 4 * Pow2(n);
    assert Pow2(n + 4) == 2 * Pow2(n + 3) == 4 * Pow2(n + 2);
    assert Pow2(n + 6) == 2 * Pow2(n + 5) == 4 * Pow2(n + 4);
  }

  lemma {:induction false} BlockFits(level: nat, x: nat)
    requires level <= 10 && x < Pow2(64)
    ensures Block(level, x) < Pow2(64 - 6 * level)
  {
    if level > 0 {
      BlockFits(level - 1, x);
      var n := 64 - 6 * level;
      Pow2SixMore(n);
    }
  }

  predicate SameTail(a: seq<bool>, b: seq<bool>, k: nat) {
    |a| == |b| && forall i :: k <= i < |a| ==> a[i] == b[i]
  }

  lemma TailsByIndex(a: Word, b: Word, k: nat)
    requires k <= 64
    ensures a[k..] == b[k..] <==> SameTail(a, b, k)
  {
    if a[k..] == b[k..] {
      forall i | k <= i < 64 ensures a[i] == b[i] {
        assert a[i] == a[k..][i - k];
        assert b[i] == b[k..][i - k];
      }
    }
  }

  /** Two times lie in the same block of a level exactly when no bit at or above
      that level's digit differs. */
  lemma SameBlockByBits(level: nat, x: nat, y: nat)
    requires level <= 10 && x < Pow2(64) && y < Pow2(64)
    ensures SameBlock(level, x, y) <==> SameTail(Word64(x), Word64(y), 6 * level)
  {
    BitsAbove(level, x);
    BitsAbove(level, y);
    TailsByIndex(Word64(x), Word64(y), 6 * level);
    if Word64(x)[6 * level..] == Word64(y)[6 * level..] {
      BlockFits(level, x);
      BlockFits(level, y);
      BitsInjective(64 - 6 * level, Block(level, x), Block(level, y));
    }
  }

  lemma {:induction false} LowOnes(n: nat, k: nat, x: nat)
    requires k <= n && x + 1 == Pow2(k)
    ensures forall i :: 0 <= i < n ==> (Bits(n, x)[i] <==> i < k)
  {
    if n > 0 {
      if k == 0 {
        assert x == 0;
        LowOnes(n - 1, 0, 0);
      } else {
        assert x / 2 + 1 == Pow2(k - 1);
        LowOnes(n - 1, k - 1, x / 2);
      }
    }
  }

  lemma TopBitOfCap()
    ensures LeadingZeros(Word64(MAX_DURATION - 1)) == 28
  {
    // MAX_DURATION - 1 is twice 2^35 - 1
    var low := Pow2_35() - 1;
    LowOnes(63, 35, low);
    assert Word64(MAX_DURATION - 1) == [false] + Bits(63, low);
    HighestBit(Word64(MAX_DURATION - 1), 35);
  }

  function Pow2_35(): (p: nat)
    ensures p == 0x8_0000_0000 == Pow2(35)
  {
    assert Pow2(5) == 32;
    assert Pow2(10) == 32 * Pow2(5);
    assert Pow2(15) == 32 * Pow2(10);
    assert Pow2(20) == 32 * Pow2(15);
    assert Pow2(25) == 32 * Pow2(20);
    assert Pow2(30) == 32 * Pow2(25);
    assert Pow2(35) == 32 * Pow2(30);
    0x8_0000_0000
  }

  lemma Pow2_64()
    ensures Pow2(64) == U64_END
  {
    var p := Pow2_35();
    assert Pow2(40) == 32 * Pow2(35);
    assert Pow2(45) == 32 * Pow2(40);
    assert Pow2(50) == 32 * Pow2(45);
    assert Pow2(55) == 32 * Pow2(50);
    assert Pow2(60) == 32 * Pow2(55);
    assert Pow2(64) == 16 * Pow2(60);
  }

  lemma MaskedBits(elapsed: nat, when: nat)
    ensures forall i :: 0 <= i < 64 ==>
              (Masked(elapsed, when)[i] <==> Word64(elapsed)[i] != Word64(when)[i] || i < 6)
  {
    LowOnes(64, 6, 63) by { assert Pow2(6) == 64; }
  }

  /** The highest set bit of the capped word decides the level. */
  lemma CappedTopBit(masked: Word, h: nat)
    requires h < 64 && masked[h] && forall i :: h < i < 64 ==> !masked[i]
    ensures var capped := if Value(masked) >= MAX_DURATION then Word64(MAX_DURATION - 1) else masked;
            63 - LeadingZeros(capped) == if h >= 36 then 35 else h
  {
    HighestBit(masked, h);
    TopBitOfCap();
    var p := Pow2_35();
    assert Pow2(36) == MAX_DURATION + 1;
    if h >= 36 {
      ValueLowerBound(masked, h);
      Pow2Monotone(36, h);
    } else if h < 35 {
      ValueUpperBound(masked, 35);
    }
  }

  /** The level is decided by the highest differing bit. */
  lemma LevelOfHighestDifference(elapsed: nat, when: nat, h: nat)
    requires elapsed < Pow2(64) && when < Pow2(64) && h < 64
    requires SameTail(Word64(elapsed), Word64(when), h + 1)
    requires h < 6 || Word64(elapsed)[h] != Word64(when)[h]
    ensures LevelFor(elapsed, when) == if h >= 36 then 5 else h / 6
  {
    var level := if h >= 36 then 5 else h / 6;
    if level < 5 {
      SameBlockByBits(level + 1, elapsed, when);
    }
    if level > 0 {
      SameBlockByBits(level, elapsed, when);
    }
    LevelIsLeast(elapsed, when, level);
  }

  /** What the program computes is the highest bit in which the times differ, at
      least 5 and at most 35. */
  lemma SignificantBit(elapsed: nat, when: nat) returns (h: nat)
    ensures h < 64 && WheelFor(elapsed, when) == (if h >= 36 then 35 else h) / LEVELS
    ensures SameTail(Word64(elapsed), Word64(when), h + 1)
    ensures h < 6 || Word64(elapsed)[h] != Word64(when)[h]
  {
    var masked := Masked(elapsed, when);
    LeadingZerosIsHighest(masked);
    MaskedBits(elapsed, when);
    assert masked[5];
    h := 63 - LeadingZeros(masked);
    CappedTopBit(masked, h);
  }

  /** The XOR, mask, cap and leading-zero computation is the arithmetic rule. */
  lemma WheelForIsLevelFor(elapsed: nat, when: nat)
    requires elapsed < U64_END && when < U64_END
    ensures WheelFor(elapsed, when) == LevelFor(elapsed, when)
  {
    Pow2_64();
    var h := SignificantBit(elapsed, when);
    LevelOfHighestDifference(elapsed, when, h);
  }

  lemma {:induction false} Pow2Monotone(m: nat, n: nat)
    requires m <= n
    ensures Pow2(m) <= Pow2(n)
    decreases n
  {
    if m < n {
      Pow2Monotone(m, n - 1);
    }
  }
}
