/**
 The carry-from-the-top counter that walks indices in bit-reversed order. Bit masks are
 powers of two, so `j & bit` and `j ^ bit` are written as arithmetic on naturals.
 */
module BitReversal {

  function Pow2(n: nat): (p: nat)
    ensures p > 0
  {
    if n == 0 then 1 else 2 * Pow2(n - 1)
  }

  predicate HasBit(j: nat, bit: nat)
    requires bit > 0
  {
    j / bit % 2 == 1
  }

  function FlipBit(j: nat, bit: nat): nat
    requires bit > 0
  {
    if HasBit(j, bit) then j / bit * bit - bit + j % bit else j + bit
  }

  /** The n-bit number whose bits are those of i in the opposite order. */
  function Reverse(n: nat, i: nat): (r: nat)
    requires i < Pow2(n)
    ensures r < Pow2(n)
  {
    if n == 0 then 0 else (if i % 2 == 1 then Pow2(n - 1) else 0) + Reverse(n - 1, i / 2)
  }

  /** Adding one at the top bit of j, the carry travelling downwards. */
  function CarryDown(n: nat, j: nat): (r: nat)
    requires j < Pow2(n) - 1
    ensures r < Pow2(n)
  {
    if j >= Pow2(n - 1) then CarryDown(n - 1, j - Pow2(n - 1)) else j + Pow2(n - 1)
  }

  /** Reversal read from the other end: a leading bit becomes the lowest one. */
  lemma {:induction false} ReverseFromTop(n: nat, high: nat, low: nat)
    requires high < 2 && low < Pow2(n)
    ensures Reverse(n + 1, (if high == 1 then Pow2(n) else 0) + low) == 2 * Reverse(n, low) + high
  {
    if n > 0 {
      var i := (if high == 1 then Pow2(n) else 0) + low;
      assert i % 2 == low % 2 && i / 2 == (if high == 1 then Pow2(n - 1) else 0) + low / 2;
      ReverseFromTop(n - 1, high, low / 2);
      assert Reverse(n + 1, i) == (if low % 2 == 1 then Pow2(n) else 0) + Reverse(n, i / 2);
    }
  }

  lemma {:induction false} ReverseTwice(n: nat, i: nat)
    requires i < Pow2(n)
    ensures Reverse(n, Reverse(n, i)) == i
  {
    if n > 0 {
      ReverseFromTop(n - 1, i % 2, Reverse(n - 1, i / 2));
      ReverseTwice(n - 1, i / 2);
    }
  }

  lemma {:induction false} ReverseOfSuccessor(n: nat, i: nat)
    requires i + 1 < Pow2(n)
    ensures Reverse(n, i) < Pow2(n) - 1
    ensures CarryDown(n, Reverse(n, i)) == Reverse(n, i + 1)
  {
    if i % 2 == 1 {
      assert (i + 1) / 2 == i / 2 + 1;
      ReverseOfSuccessor(n - 1, i / 2);
    }
  }

  lemma TopBit(j: nat, bit: nat)
    requires 0 < bit && j < 2 * bit
    ensures HasBit(j, bit) <==> j >= bit
    ensures FlipBit(j, bit) == if j >= bit then j - bit else j + bit
  {
    if j >= bit {
      assert j / bit == 1;
    } else {
      assert j / bit == 0;
    }
  }

  /** One step of the counter. The clearing loop always stops at a clear bit. */
  method NextReversed(levels: nat, reversed: nat) returns (j: nat)
    requires reversed < Pow2(levels) - 1
    ensures j == CarryDown(levels, reversed)
  {
    j := reversed;
    var bit := Pow2(levels) / 2;
    ghost var n := levels;
    TopBit(j, bit);
    while HasBit(j, bit)
      invariant 0 < n <= levels && bit == Pow2(n - 1)
      invariant j < Pow2(n) - 1 && CarryDown(n, j) == CarryDown(levels, reversed)
      invariant HasBit(j, bit) <==> j >= bit
      invariant FlipBit(j, bit) == if j >= bit then j - bit else j + bit
      decreases n
    {
      j := FlipBit(j, bit);
      bit := bit / 2;
      n := n - 1;
      TopBit(j, bit);
    }
    j := FlipBit(j, bit);
  }
}
