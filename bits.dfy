/**
 * JavaScript's 32-bit shift-and-mask idiom: `1 << i` shifts by i mod 32, and
 * `(mask & m) == mask` asks whether m has that bit set.
 */
module Bits {
  /** The shift count JavaScript uses for `1 << i`: i mod 32, counted up from 0. */
  function BitIndex(i: nat): bv5
    decreases i
  {
    if i % 32 == 0 then 0 else BitIndex(i - 1) + 1
  }

  /** BitIndex is i mod 32 as a 5-bit count. */
  lemma {:induction false} BitIndexIsMod(i: nat)
    ensures BitIndex(i) as int == i % 32
  {
    if i % 32 != 0 {
      BitIndexIsMod(i - 1);
      assert (i - 1) % 32 == i % 32 - 1;
    }
  }

  /** 2^k as a 32-bit word, built by doubling. */
  function Pow(k: bv5): bv32
    decreases k
  {
    if k == 0 then 1 else Pow(k - 1) << 1
  }

  /** Doubling k times is shifting a 1 left by k. */
  lemma {:induction false} PowIsShift(k: bv5)
    ensures Pow(k) == (1 as bv32) << k
    decreases k
  {
    if k != 0 {
      PowIsShift(k - 1);
    }
  }

  /** A shifted 1 has exactly one bit set. */
  lemma LoneBit(k: bv5)
    ensures var b := (1 as bv32) << k; b != 0 && b & (b - 1) == 0
  {
  }

  /** `1 << i` on JavaScript's 32-bit integers: the count is taken mod 32. */
  function Bit(i: nat): bv32 {
    Pow(BitIndex(i))
  }

  /** Bit i is a 1 shifted left by i mod 32. */
  lemma BitIsShift(i: nat)
    ensures Bit(i) == (1 as bv32) << BitIndex(i)
    ensures BitIndex(i) as int == i % 32
  {
    PowIsShift(BitIndex(i));
    BitIndexIsMod(i);
  }

  /** A word with at most one bit set. */
  predicate Lone(b: bv32) {
    b & (b - 1) == 0
  }

  /** 2^k has exactly one bit set. */
  lemma PowIsLone(k: bv5)
    ensures Pow(k) != 0 && Lone(Pow(k))
  {
    PowIsShift(k);
    LoneBit(k);
  }

  /** Mask m has every bit of b set: `(b & m) == b`. */
  predicate Covers(m: bv32, b: bv32) {
    b & m == b
  }

  /** A lone bit is covered by a union exactly when one of the parts covers it. */
  lemma CoversUnion(b: bv32, m1: bv32, m2: bv32)
    requires Lone(b)
    ensures Covers(m1 | m2, b) <==> Covers(m1, b) || Covers(m2, b)
  {
    LoneBitUnion(b, m1, m2);
  }

  /** The same fact on raw words: a word with one bit set is inside a union
      exactly when it is inside one of the parts. */
  lemma LoneBitUnion(b: bv32, m1: bv32, m2: bv32)
    requires b & (b - 1) == 0
    ensures ((b & (m1 | m2)) == b) <==> ((b & m1) == b || (b & m2) == b)
  {
  }

  /** `(mask & filterNames) == mask` with `mask = 1 << i`. */
  predicate Selected(filterNames: bv32, i: nat) {
    Covers(filterNames, Bit(i))
  }

  /** Bit i of a union is set exactly when it is set in either part. */
  lemma SelectedUnion(m1: bv32, m2: bv32, i: nat)
    ensures Selected(m1 | m2, i) <==> Selected(m1, i) || Selected(m2, i)
  {
    PowIsLone(BitIndex(i));
    CoversUnion(Bit(i), m1, m2);
  }

  /** No bit is set in the empty mask. */
  lemma NothingSelectedInZero(i: nat)
    ensures !Selected(0, i)
  {
    PowIsLone(BitIndex(i));
  }

  /** One shifted 1 contains another exactly when the shift counts agree. */
  lemma ShiftCovers(a: bv5, b: bv5)
    ensures (((1 as bv32) << b) & ((1 as bv32) << a) == (1 as bv32) << b) <==> a == b
  {
  }

  /** 2^a covers 2^b exactly when a == b. */
  lemma PowCovers(a: bv5, b: bv5)
    ensures Covers(Pow(a), Pow(b)) <==> a == b
  {
    PowIsShift(a);
    PowIsShift(b);
    ShiftCovers(a, b);
  }

  /** Bit j has bit i set exactly when i and j agree mod 32. */
  lemma SelectedBit(j: nat, i: nat)
    ensures Selected(Bit(j), i) <==> j % 32 == i % 32
  {
    PowCovers(BitIndex(j), BitIndex(i));
    BitIndexIsMod(j);
    BitIndexIsMod(i);
  }
}
