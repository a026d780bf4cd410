/** 64-bit machine words as their bits: index `k` is the bit of weight `2^k`.

    The timer wheel computes levels and slots with XOR, masks, rotations and
    zero counts.  This module gives those operations their bitwise meaning and
    relates them to the numbers the words stand for. */
module Words {

  type Word = w: seq<bool> | |w| == 64 witness seq(64, _ => false)

  function Pow2(n: nat): (p: nat)
    ensures p >= 1
  {
    if n == 0 then 1 else 2 * Pow2(n - 1)
  }

  /** The number a bit string stands for. */
  function Value(bits: seq<bool>): nat {
    if bits == [] then 0 else (if bits[0] then 1 else 0) + 2 * Value(bits[1..])
  }

  /** The `n` low bits of `x`. */
  function Bits(n: nat, x: nat): (bits: seq<bool>)
    ensures |bits| == n
  {
    if n == 0 then [] else [x % 2 == 1] + Bits(n - 1, x / 2)
  }

  function Word64(x: nat): Word {
    Bits(64, x)
  }

  function Xor(a: Word, b: Word): Word {
    seq(64, i requires 0 <= i < 64 => a[i] != b[i])
  }

  function Or(a: Word, b: Word): Word {
    seq(64, i requires 0 <= i < 64 => a[i] || b[i])
  }

  function AndNot(a: Word, b: Word): Word {
    seq(64, i requires 0 <= i < 64 => a[i] && !b[i])
  }

  /** `rotate_right(n)`: bit `i` of the result is bit `i + n` of the word. */
  function RotateRight(w: Word, n: nat): Word {
    seq(64, i requires 0 <= i < 64 => w[(i + n) % 64])
  }

  /** `1 << k`. */
  function OneBit(k: nat): Word
    requires k < 64
  {
    seq(64, i requires 0 <= i < 64 => i == k)
  }

  function TrailingZeros(bits: seq<bool>): (n: nat)
    ensures n <= |bits|
  {
    if bits == [] || bits[0] then 0 else 1 + TrailingZeros(bits[1..])
  }

  function LeadingZeros(bits: seq<bool>): (n: nat)
    ensures n <= |bits|
  {
    if bits == [] || bits[|bits| - 1] then 0 else 1 + LeadingZeros(bits[..|bits| - 1])
  }

  /** `trailing_zeros` is the index of the lowest set bit, or the width. */
  lemma {:induction false} TrailingZerosIsLowest(bits: seq<bool>)
    ensures forall i :: 0 <= i < TrailingZeros(bits) ==> !bits[i]
    ensures TrailingZeros(bits) < |bits| ==> bits[TrailingZeros(bits)]
  {
    if bits != [] && !bits[0] {
      TrailingZerosIsLowest(bits[1..]);
    }
  }

  /** `width - 1 - leading_zeros` is the index of the highest set bit. */
  lemma {:induction false} LeadingZerosIsHighest(bits: seq<bool>)
    ensures forall i :: |bits| - LeadingZeros(bits) <= i < |bits| ==> !bits[i]
    ensures LeadingZeros(bits) < |bits| ==> bits[|bits| - 1 - LeadingZeros(bits)]
  {
    if bits != [] && !bits[|bits| - 1] {
      LeadingZerosIsHighest(bits[..|bits| - 1]);
    }
  }

  lemma HighestBit(bits: seq<bool>, h: nat)
    requires h < |bits| && bits[h]
    requires forall i :: h < i < |bits| ==> !bits[i]
    ensures |bits| - 1 - LeadingZeros(bits) == h
  {
    LeadingZerosIsHighest(bits);
  }

  /** A word is determined by its number, and every number below `2^n` has one. */
  lemma {:induction false} ValueOfBits(n: nat, x: nat)
    requires x < Pow2(n)
    ensures Value(Bits(n, x)) == x
  {
    if n > 0 {
      ValueOfBits(n - 1, x / 2);
      assert Bits(n, x)[1..] == Bits(n - 1, x / 2);
    }
  }

  lemma {:induction false} ValueLowerBound(bits: seq<bool>, k: nat)
    requires k < |bits| && bits[k]
    ensures Value(bits) >= Pow2(k)
  {
    if k > 0 {
      ValueLowerBound(bits[1..], k - 1);
    }
  }

  lemma {:induction false} ValueUpperBound(bits: seq<bool>, k: nat)
    requires forall i :: k <= i < |bits| ==> !bits[i]
    ensures Value(bits) < Pow2(k)
  {
    if bits != [] {
      if k == 0 {
        ValueUpperBound(bits[1..], 0);
      } else {
        ValueUpperBound(bits[1..], k - 1);
      }
    }
  }

  lemma {:induction false} BitsInjective(n: nat, x: nat, y: nat)
    requires x < Pow2(n) && y < Pow2(n)
    requires Bits(n, x) == Bits(n, y)
    ensures x == y
  {
    ValueOfBits(n, x);
    ValueOfBits(n, y);
  }

  /** Dropping the six low bits divides by 64. */
  lemma DropSix(n: nat, x: nat)
    requires n >= 6
    ensures Bits(n, x)[6..] == Bits(n - 6, x / 64)
  {
    var b1 := Bits(n - 1, x / 2);
    var b2 := Bits(n - 2, x / 4);
    var b3 := Bits(n - 3, x / 8);
    var b4 := Bits(n - 4, x / 16);
    var b5 := Bits(n - 5, x / 32);
    var b6 := Bits(n - 6, x / 64);
    assert Bits(n, x) == [x % 2 == 1] + b1;
    assert b1 == [x / 2 % 2 == 1] + b2;
    assert b2 == [x / 4 % 2 == 1] + b3;
    assert b3 == [x / 8 % 2 == 1] + b4;
    assert b4 == [x / 16 % 2 == 1] + b5;
    assert b5 == [x / 32 % 2 == 1] + b6;
  }

  const ZERO: Word := seq(64, _ => false)

  const U32_END := 0x1_0000_0000

  /** The bit `j` places on from bit `from`, going round. */
  predicate BitAround(w: Word, from: nat, j: nat) {
    w[(from + j) % 64]
  }

  lemma RotationAsU32(from: nat, j: nat)
    ensures (j + from % U32_END) % 64 == (from + j) % 64
  {
  }

  lemma RotatedBit(w: Word, from: nat, j: nat)
    requires j < 64
    ensures RotateRight(w, from % U32_END)[j] == BitAround(w, from, j)
  {
    RotationAsU32(from, j);
  }

  /** Rotating a word to bit `from` and counting trailing zeros finds its first set
      bit from there on, going round; the rotation is given as a u32. */
  lemma RotationFindsFirst(w: Word, from: nat, ahead: nat)
    requires ahead < 64 && BitAround(w, from, ahead)
    requires forall j :: 0 <= j < ahead ==> !BitAround(w, from, j)
    ensures TrailingZeros(RotateRight(w, from % U32_END)) == ahead
  {
    var rotated := RotateRight(w, from % U32_END);
    TrailingZerosIsLowest(rotated);
    var zeros := TrailingZeros(rotated);
    RotatedBit(w, from, ahead);
    if zeros < 64 {
      RotatedBit(w, from, zeros);
    }
  }
}
