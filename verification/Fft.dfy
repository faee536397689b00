/**
 The in-place radix-2 transform of the two browser scripts, for any power-of-two length:
 a bit-reversal reordering followed by the butterfly network over a real and an
 imaginary array.
 */
module Fft {
  import opened Common
  import opened ComplexNumbers
  import opened Dft
  import opened BitReversal

  /** The samples that block b of size 2^level holds the transform of. */
  function Block(y: seq<Complex>, levels: nat, level: nat, b: nat): (z: seq<Complex>)
    requires |y| == Pow2(levels) && level <= levels && b < Pow2(levels - level)
    ensures |z| == Pow2(level)
    decreases levels
  {
    if level == levels then y
    else if b < Pow2(levels - 1 - level) then Block(Evens(y), levels - 1, level, b)
    else Block(Odds(y), levels - 1, level, b - Pow2(levels - 1 - level))
  }

  function Coefficients(y: seq<Complex>, cis: real -> Complex): (c: seq<Complex>)
    ensures |c| == |y|
  {
    seq(|y|, k requires 0 <= k < |y| => Coefficient(y, cis, k))
  }

  /** The whole array once the stages up to block size 2^level are done. */
  function Stage(y: seq<Complex>, cis: real -> Complex, levels: nat, level: nat): (a: seq<Complex>)
    requires |y| == Pow2(levels) && level <= levels
    ensures |a| == |y|
    decreases levels
  {
    if level == levels then Coefficients(y, cis)
    else Stage(Evens(y), cis, levels - 1, level) + Stage(Odds(y), cis, levels - 1, level)
  }

  /** Element k of block b when every block has the given size. */
  function Position(b: nat, size: nat, k: nat): nat {
    b * size + k
  }

  /** The stage invariant: block b of a stage is the transform of its own samples ... */
  lemma {:induction false} StageBlock(y: seq<Complex>, cis: real -> Complex, levels: nat, level: nat, b: nat, k: nat)
    requires |y| == Pow2(levels) && level <= levels && b < Pow2(levels - level) && k < Pow2(level)
    ensures Position(b, Pow2(level), k) < |y|
    ensures Stage(y, cis, levels, level)[Position(b, Pow2(level), k)] == Coefficient(Block(y, levels, level, b), cis, k)
    decreases levels
  {
    hide Coefficient, Position;
    if level == levels {
      FirstBlock(Pow2(level), k);
    } else {
      var blocks := Pow2(levels - 1 - level);
      PowersMultiply(levels - 1 - level, level);
      if b < blocks {
        StageBlock(Evens(y), cis, levels - 1, level, b, k);
      } else {
        ShiftBlock(b, blocks, Pow2(level), k);
        StageBlock(Odds(y), cis, levels - 1, level, b - blocks, k);
      }
    }
  }

  /** ... which are the strided subsequence that starts at the reversal of the block's number. */
  lemma {:induction false} BlockIsStrided(y: seq<Complex>, levels: nat, level: nat, b: nat, n: nat)
    requires |y| == Pow2(levels) && level <= levels && b < Pow2(levels - level) && n < Pow2(level)
    ensures var i := Position(n, Pow2(levels - level), Reverse(levels - level, b));
            i < |y| && Block(y, levels, level, b)[n] == y[i]
    decreases levels
  {
    hide Position, Reverse, Half, Pow2, Block;
    PowerSteps(levels, level);
    if level == levels {
      WholeBlock(y, levels, b);
      UnitStride(n);
      ReverseNothing(b);
    } else {
      var stride := Pow2(levels - 1 - level);
      var high, low := if b < stride then 0 else 1, if b < stride then b else b - stride;
      BlockOfHalf(y, levels, level, high, low);
      BlockIsStrided(Half(y, high), levels - 1, level, low, n);
      ReverseFromTop(levels - 1 - level, high, low);
      DoubleStride(n, stride, Reverse(levels - 1 - level, low), high);
      HalfAt(y, high, Position(n, stride, Reverse(levels - 1 - level, low)));
    }
  }

  lemma PowerSteps(levels: nat, level: nat)
    requires level <= levels
    ensures Pow2(0) == 1
    ensures level < levels ==>
              Pow2(levels) == 2 * Pow2(levels - 1) && Pow2(levels - level) == 2 * Pow2(levels - 1 - level)
  {
  }

  lemma WholeBlock(y: seq<Complex>, levels: nat, b: nat)
    requires |y| == Pow2(levels) && b < Pow2(0)
    ensures Block(y, levels, levels, b) == y
  {
  }

  function Half(y: seq<Complex>, high: nat): (z: seq<Complex>)
    ensures |z| == |y| / 2
  {
    if high == 0 then Evens(y) else Odds(y)
  }

  lemma ReverseNothing(b: nat)
    requires b < Pow2(0)
    ensures Reverse(0, b) == 0
  {
  }

  lemma BlockOfHalf(y: seq<Complex>, levels: nat, level: nat, high: nat, low: nat)
    requires |y| == Pow2(levels) && level < levels && high < 2 && low < Pow2(levels - 1 - level)
    ensures var b := (if high == 1 then Pow2(levels - 1 - level) else 0) + low;
            b < Pow2(levels - level) && Block(y, levels, level, b) == Block(Half(y, high), levels - 1, level, low)
  {
  }

  lemma HalfAt(y: seq<Complex>, high: nat, i: nat)
    requires high < 2 && i < |Half(y, high)|
    ensures 2 * i + high < |y| && Half(y, high)[i] == y[2 * i + high]
  {
  }

  lemma FirstBlock(size: nat, k: nat)
    ensures Position(0, size, k) == k
  {
  }

  lemma UnitStride(n: nat)
    ensures Position(n, 1, 0) == n
  {
  }

  lemma ShiftBlock(b: nat, blocks: nat, size: nat, k: nat)
    requires blocks <= b
    ensures Position(b, size, k) == Position(blocks, size, 0) + Position(b - blocks, size, k)
  {
    assert (b - blocks) * size == b * size - blocks * size;
  }

  lemma DoubleStride(n: nat, stride: nat, offset: nat, bit: nat)
    ensures Position(n, 2 * stride, 2 * offset + bit) == 2 * Position(n, stride, offset) + bit
  {
  }

  lemma WithinBlock(b: nat, size: nat, k: nat)
    ensures Position(b, size, k) == Position(b, size, 0) + k
  {
  }

  lemma NextBlock(b: nat, size: nat)
    ensures Position(b + 1, size, 0) == Position(b, size, 0) + size
  {
  }

  lemma DoubleBlocks(blocks: nat, size: nat)
    ensures Position(2 * blocks, size, 0) == 2 * Position(blocks, size, 0)
  {
  }

  /** Two blocks of half the size take the place of one. */
  lemma PairOfBlocks(b: nat, half: nat, k: nat)
    ensures Position(b, 2 * half, k) == Position(2 * b, half, k)
    ensures Position(b, 2 * half, k + half) == Position(2 * b + 1, half, k) == Position(b, 2 * half, k) + half
  {
  }

  lemma {:induction false} BlockHalves(y: seq<Complex>, levels: nat, level: nat, b: nat)
    requires |y| == Pow2(levels) && level < levels && b < Pow2(levels - level - 1)
    ensures Block(y, levels, level, 2 * b) == Evens(Block(y, levels, level + 1, b))
    ensures Block(y, levels, level, 2 * b + 1) == Odds(Block(y, levels, level + 1, b))
    decreases levels
  {
    if level + 1 < levels {
      var blocks := Pow2(levels - 2 - level);
      if b < blocks {
        BlockHalves(Evens(y), levels - 1, level, b);
      } else {
        BlockHalves(Odds(y), levels - 1, level, b - blocks);
      }
    }
  }

  /** Before the first stage the array is the bit-reversed input. */
  lemma FirstStage(y: seq<Complex>, cis: real -> Complex, levels: nat, p: nat)
    requires IsRotation(cis) && |y| == Pow2(levels) && p < |y|
    ensures Stage(y, cis, levels, 0)[p] == y[Reverse(levels, p)]
  {
    hide Coefficient, IsRotation, Position;
    UnitStride(p);
    StageBlock(y, cis, levels, 0, p, 0);
    FirstBlock(Pow2(levels), Reverse(levels, p));
    BlockIsStrided(y, levels, 0, p, 0);
    SingleSample(Block(y, levels, 0, p), cis);
  }

  lemma SingleSample(y: seq<Complex>, cis: real -> Complex)
    requires IsRotation(cis) && |y| == 1
    ensures Coefficient(y, cis, 0) == y[0]
  {
    WholeTurns(cis, 0);
    assert DftSum(y, cis, 0, 1) == Add(ZERO, Mul(y[0], ONE));
  }

  /** Slots lo and hi of one stage become lo and hi of the next by one butterfly. */
  ghost predicate ButterflyAt(before: seq<Complex>, after: seq<Complex>, turn: Complex, lo: nat, hi: nat)
    requires lo < |before| == |after| && hi < |before|
  {
    && after[lo] == Add(before[lo], Mul(turn, before[hi]))
    && after[hi] == Sub(before[lo], Mul(turn, before[hi]))
  }

  lemma StageStep(y: seq<Complex>, cis: real -> Complex, levels: nat, level: nat, b: nat, k: nat)
    requires IsRotation(cis) && |y| == Pow2(levels) && level < levels
    requires b < Pow2(levels - level - 1) && k < Pow2(level)
    ensures var half := Pow2(level);
            var lo := Position(b, 2 * half, k);
            && lo + half < |y|
            && ButterflyAt(Stage(y, cis, levels, level), Stage(y, cis, levels, level + 1),
                           cis(Turns(k, 2 * half)), lo, lo + half)
  {
    hide Mul, Add, Sub, Turns, Stage, Block, Coefficient, Position;
    var half := Pow2(level);
    StageBlock(y, cis, levels, level, 2 * b, k);
    StageBlock(y, cis, levels, level, 2 * b + 1, k);
    StageBlock(y, cis, levels, level + 1, b, k);
    StageBlock(y, cis, levels, level + 1, b, k + half);
    PairOfBlocks(b, half, k);
    BlockHalves(y, levels, level, b);
    Butterfly(Block(y, levels, level + 1, b), cis, k, half);
  }

  lemma {:induction false} PowersMultiply(a: nat, b: nat)
    ensures Pow2(a + b) == Position(Pow2(a), Pow2(b), 0)
  {
    hide Position;
    if a == 0 {
      NextBlock(0, Pow2(b));
      FirstBlock(Pow2(b), 0);
    } else {
      PowersMultiply(a - 1, b);
      DoubleBlocks(Pow2(a - 1), Pow2(b));
    }
  }

  // ---------------------------------------------------------------- in-place reordering

  /** The array after the reordering loop has passed every index below i. */
  ghost function Reordered<T>(x: seq<T>, levels: nat, i: nat): (y: seq<T>)
    requires |x| == Pow2(levels)
    ensures |y| == |x|
  {
    seq(|x|, p requires 0 <= p < |x| => if p < i || Reverse(levels, p) < i then x[Reverse(levels, p)] else x[p])
  }

  function Swapped<T>(s: seq<T>, i: nat, j: nat): (t: seq<T>)
    requires i < |s| && j < |s|
    ensures |t| == |s| && multiset(t) == multiset(s)
  {
    s[i := s[j]][j := s[i]]
  }

  /** The guarded swap at i is exactly what separates two consecutive passes. */
  lemma ReorderStep<T>(x: seq<T>, levels: nat, i: nat)
    requires |x| == Pow2(levels) && i < |x|
    ensures var s, r := Reordered(x, levels, i), Reverse(levels, i);
            Reordered(x, levels, i + 1) == if i < r then Swapped(s, i, r) else s
  {
    ReverseTwice(levels, i);
    var s, r := Reordered(x, levels, i), Reverse(levels, i);
    var t := if i < r then Swapped(s, i, r) else s;
    forall p | 0 <= p < |x| ensures Reordered(x, levels, i + 1)[p] == t[p] {
      ReverseTwice(levels, p);
    }
  }

  lemma ReorderStart<T>(x: seq<T>, levels: nat)
    requires |x| == Pow2(levels)
    ensures Reverse(levels, 0) == 0 && Reordered(x, levels, 1) == x
  {
    ReverseZero(levels);
    forall p | 0 <= p < |x| ensures Reordered(x, levels, 1)[p] == x[p] {
      ReverseTwice(levels, p);
    }
  }

  lemma ReverseZero(levels: nat)
    ensures Reverse(levels, 0) == 0
  {
  }

  /** The finished reordering moves every sample to its reversed index and loses none. */
  lemma {:induction false} ReorderingPermutes<T>(x: seq<T>, levels: nat, i: nat)
    requires |x| == Pow2(levels) && 1 <= i <= |x|
    ensures multiset(Reordered(x, levels, i)) == multiset(x)
    ensures i == |x| ==> forall p :: 0 <= p < |x| ==> Reordered(x, levels, i)[p] == x[Reverse(levels, p)]
  {
    if i == 1 {
      ReorderStart(x, levels);
    } else {
      ReorderingPermutes(x, levels, i - 1);
      ReorderStep(x, levels, i - 1);
    }
  }

  method Exchange(a: array<real>, i: nat, j: nat)
    requires i < a.Length && j < a.Length
    modifies a
    ensures a[..] == Swapped(old(a[..]), i, j)
  {
    a[i], a[j] := a[j], a[i];
  }

  /** The reordering loop of worker.js: both arrays are swapped. */
  method ReorderPairs(re: array<real>, im: array<real>, levels: nat)
    requires re != im && re.Length == im.Length == Pow2(levels)
    modifies re, im
    ensures forall p :: 0 <= p < re.Length ==> re[p] == old(re[Reverse(levels, p)])
    ensures forall p :: 0 <= p < im.Length ==> im[p] == old(im[Reverse(levels, p)])
    ensures multiset(re[..]) == old(multiset(re[..])) && multiset(im[..]) == old(multiset(im[..]))
  {
    hide Reordered, Swapped, Reverse;
    ghost var x, y := re[..], im[..];
    ReorderStart(x, levels);
    ReorderStart(y, levels);
    var i, j := 1, 0;
    while i < re.Length
      invariant 1 <= i <= re.Length && j == Reverse(levels, i - 1)
      invariant re[..] == Reordered(x, levels, i) && im[..] == Reordered(y, levels, i)
    {
      ReverseOfSuccessor(levels, i - 1);
      ReorderStep(x, levels, i);
      ReorderStep(y, levels, i);
      j := NextReversed(levels, j);
      if i < j {
        Exchange(re, i, j);
        Exchange(im, i, j);
      }
      i := i + 1;
    }
    ReorderingPermutes(x, levels, i);
    ReorderingPermutes(y, levels, i);
    forall p | 0 <= p < re.Length
      ensures re[p] == old(re[Reverse(levels, p)]) && im[p] == old(im[Reverse(levels, p)])
    {
      assert re[p] == re[..][p] && im[p] == im[..][p];
    }
  }

  /** The reordering loop of file-upload.js: only the samples are swapped, the imaginary array is still zero. */
  method ReorderSamples(re: array<real>, levels: nat)
    requires re.Length == Pow2(levels)
    modifies re
    ensures forall p :: 0 <= p < re.Length ==> re[p] == old(re[Reverse(levels, p)])
    ensures multiset(re[..]) == old(multiset(re[..]))
  {
    hide Reordered, Swapped;
    ghost var x := re[..];
    ReorderStart(x, levels);
    var reverse := 0;
    for i := 1 to re.Length
      invariant reverse == Reverse(levels, i - 1)
      invariant re[..] == Reordered(x, levels, i)
    {
      ReverseOfSuccessor(levels, i - 1);
      ReorderStep(x, levels, i);
      reverse := NextReversed(levels, reverse);
      if i < reverse {
        Exchange(re, i, reverse);
      }
    }
    ReorderingPermutes(x, levels, re.Length);
    forall p | 0 <= p < re.Length ensures re[p] == old(re[Reverse(levels, p)]) {
      assert re[p] == re[..][p];
    }
  }

  // ---------------------------------------------------------------- butterfly network

  ghost predicate Holds(re: array<real>, im: array<real>, a: seq<Complex>)
    reads re, im
  {
    && re.Length == im.Length == |a|
    && forall p :: 0 <= p < |a| ==> Complex(re[p], im[p]) == a[p]
  }

  /** The innermost loop: every butterfly of the block at start. */
  method TransformBlock(cis: real -> Complex, re: array<real>, im: array<real>, start: nat, size: nat,
                        ghost before: seq<Complex>, ghost after: seq<Complex>)
    requires re != im && re.Length == im.Length == |before| == |after|
    requires size > 0 && size % 2 == 0 && start + size <= re.Length
    requires forall i :: 0 <= i < size / 2 ==>
               ButterflyAt(before, after, cis(Turns(i, size)), start + i, start + i + size / 2)
    requires forall p :: start <= p < start + size ==> Complex(re[p], im[p]) == before[p]
    modifies re, im
    ensures forall p :: start <= p < start + size ==> Complex(re[p], im[p]) == after[p]
    ensures forall p :: 0 <= p < re.Length && !(start <= p < start + size) ==>
              re[p] == old(re[p]) && im[p] == old(im[p])
  {
    var half := size / 2;
    for i := 0 to half
      invariant forall p :: start <= p < start + i || start + half <= p < start + half + i ==>
                  Complex(re[p], im[p]) == after[p]
      invariant forall p :: start + i <= p < start + half || start + half + i <= p < start + size ==>
                  Complex(re[p], im[p]) == before[p]
      invariant forall p :: 0 <= p < re.Length && !(start <= p < start + size) ==>
                  re[p] == old(re[p]) && im[p] == old(im[p])
    {
      hide Mul, Add, Sub, Turns;
      assert Complex(re[start + i], im[start + i]) == before[start + i];
      assert Complex(re[start + i + half], im[start + i + half]) == before[start + i + half];
      assert ButterflyAt(before, after, cis(Turns(i, size)), start + i, start + i + half);
      CombinePair(cis(Turns(i, size)), re, im, start + i, start + i + half);
    }
  }

  /** One butterfly on the two arrays: slots a and b, everything else untouched. */
  method CombinePair(turn: Complex, re: array<real>, im: array<real>, a: nat, b: nat)
    requires re != im && re.Length == im.Length && a < b < re.Length
    modifies re, im
    ensures var lo, hi := old(Complex(re[a], im[a])), old(Complex(re[b], im[b]));
            && Complex(re[a], im[a]) == Add(lo, Mul(turn, hi))
            && Complex(re[b], im[b]) == Sub(lo, Mul(turn, hi))
    ensures re[a] == old(re[a]) + (old(re[b]) * turn.re - old(im[b]) * turn.im)
    ensures im[a] == old(im[a]) + (old(re[b]) * turn.im + old(im[b]) * turn.re)
    ensures re[b] == old(re[a]) - (old(re[b]) * turn.re - old(im[b]) * turn.im)
    ensures im[b] == old(im[a]) - (old(re[b]) * turn.im + old(im[b]) * turn.re)
    ensures forall p :: 0 <= p < re.Length && p != a && p != b ==> re[p] == old(re[p]) && im[p] == old(im[p])
  {
    var cosine, sine := turn.re, turn.im;
    var r := re[b] * cosine - im[b] * sine;
    var m := re[b] * sine + im[b] * cosine;
    assert Complex(r, m) == Mul(turn, Complex(re[b], im[b]));
    hide Mul;
    re[b] := re[a] - r;
    im[b] := im[a] - m;
    re[a] := re[a] + r;
    im[a] := im[a] + m;
  }

  /** The middle loop: every block of one stage. */
  method TransformStage(cis: real -> Complex, re: array<real>, im: array<real>, size: nat,
                        ghost x: seq<Complex>, ghost levels: nat, ghost level: nat)
    requires IsRotation(cis) && |x| == Pow2(levels) && level < levels
    requires re != im && re.Length == im.Length == |x| && size == Pow2(level + 1)
    requires Holds(re, im, Stage(x, cis, levels, level))
    modifies re, im
    ensures Holds(re, im, Stage(x, cis, levels, level + 1))
  {
    hide Stage, IsRotation, ButterflyAt, Turns, Position;
    ghost var before, after := Stage(x, cis, levels, level), Stage(x, cis, levels, level + 1);
    ghost var b, blocks := 0, Pow2(levels - level - 1);
    PowersMultiply(levels - level - 1, level + 1);
    FirstBlock(size, 0);
    var start := 0;
    while start < re.Length
      invariant start == Position(b, size, 0) && b <= blocks
      invariant forall p :: 0 <= p < |x| && p < start ==> Complex(re[p], im[p]) == after[p]
      invariant forall p :: start <= p < |x| ==> Complex(re[p], im[p]) == before[p]
      decreases blocks - b
    {
      assert b < blocks;
      NextBlock(b, size);
      ShiftBlock(blocks, b + 1, size, 0);
      forall i | 0 <= i < size / 2
        ensures ButterflyAt(before, after, cis(Turns(i, size)), start + i, start + i + size / 2)
      {
        StageStep(x, cis, levels, level, b, i);
        WithinBlock(b, size, i);
      }
      TransformBlock(cis, re, im, start, size, before, after);
      start := start + size;
      b := b + 1;
    }
  }

  /** All stages: the blocks double in size until one block covers the array. */
  method Transform(cis: real -> Complex, re: array<real>, im: array<real>, ghost levels: nat, ghost x: seq<Complex>)
    requires IsRotation(cis) && |x| == Pow2(levels) && re != im && re.Length == im.Length == |x|
    requires forall p :: 0 <= p < |x| ==> Complex(re[p], im[p]) == x[Reverse(levels, p)]
    modifies re, im
    ensures forall k :: 0 <= k < |x| ==> Complex(re[k], im[k]) == Coefficient(x, cis, k)
  {
    hide IsRotation, Coefficient;
    var size := 2;
    ghost var level := 0;
    forall p | 0 <= p < |x| ensures Stage(x, cis, levels, 0)[p] == x[Reverse(levels, p)] {
      FirstStage(x, cis, levels, p);
    }
    while size <= re.Length
      invariant level <= levels && size == Pow2(level + 1)
      invariant Holds(re, im, Stage(x, cis, levels, level))
      decreases levels - level
    {
      PowerOrder(level + 1, levels);
      TransformStage(cis, re, im, size, x, levels, level);
      size := size * 2;
      level := level + 1;
    }
    PowerOrder(level + 1, levels);
    forall k | 0 <= k < |x| ensures Complex(re[k], im[k]) == Coefficient(x, cis, k) {
      assert level == levels && Complex(re[k], im[k]) == Coefficients(x, cis)[k];
    }
  }

  lemma {:induction false} PowerOrder(a: nat, b: nat)
    ensures Pow2(a) <= Pow2(b) <==> a <= b
  {
    if a > 0 && b > 0 {
      PowerOrder(a - 1, b - 1);
    }
  }

  // ---------------------------------------------------------------- the two scripts

  /** A sample of worker.js: centred on 127.5 under a Hann window, whose cosine has an even argument. */
  function Windowed(cis: real -> Complex, value: Sample, i: nat, n: nat): real
    requires n > 1
  {
    (value as real - 127.5) * (0.5 * (1.0 - cis(Turns(i, n - 1)).re))
  }

  /** Twice the sample is the centred byte less its product with the cosine of i / (n - 1) of a turn. */
  lemma WindowIs(cis: real -> Complex, value: Sample, i: nat, n: nat)
    requires n > 1
    ensures var centred := value as real - 127.5;
            2.0 * Windowed(cis, value, i, n) == centred - centred * cis(i as real / (n - 1) as real).re
  {
  }

  /** worker.js: window, reorder both arrays, then transform; x is what it transforms. */
  method Spectrum(cis: real -> Complex, bytes: seq<Sample>, levels: nat)
    returns (re: array<real>, im: array<real>, present: bool, ghost x: seq<Complex>)
    requires IsRotation(cis) && levels > 0
    ensures present <==> |bytes| >= Pow2(levels)
    ensures present ==>
              var n := Pow2(levels);
              && re.Length == im.Length == |x| == n
              && (forall i :: 0 <= i < n ==> x[i] == Complex(Windowed(cis, bytes[i], i, n), 0.0))
              && forall k :: 0 <= k < n ==> Complex(re[k], im[k]) == Coefficient(x, cis, k)
  {
    hide Coefficient, IsRotation, Reverse, Windowed;
    var length := Pow2(levels);
    re, im := new real[length](_ => 0.0), new real[length](_ => 0.0);
    present, x := |bytes| >= length, [];
    if present {
      FillWindowed(cis, bytes, re);
      x := Signal(re[..]);
      ReorderPairs(re, im, levels);
      Transform(cis, re, im, levels, x);
    }
  }

  ghost function Signal(samples: seq<real>): (x: seq<Complex>)
    ensures |x| == |samples| && forall i :: 0 <= i < |x| ==> x[i] == Complex(samples[i], 0.0)
  {
    seq(|samples|, i requires 0 <= i < |samples| => Complex(samples[i], 0.0))
  }

  /** The first loop of worker.js. */
  method FillWindowed(cis: real -> Complex, bytes: seq<Sample>, re: array<real>)
    requires 1 < re.Length <= |bytes|
    modifies re
    ensures forall i :: 0 <= i < re.Length ==> re[i] == Windowed(cis, bytes[i], i, re.Length)
  {
    for i := 0 to re.Length
      invariant forall p :: 0 <= p < i ==> re[p] == Windowed(cis, bytes[p], p, re.Length)
    {
      var weight := 0.5 * (1.0 - cis(Turns(i, re.Length - 1)).re);
      re[i] := (bytes[i] as real - 127.5) * weight;
    }
  }

  /** file-upload.js: centre on 128, reorder the samples only, then transform. */
  method RenderSpectrum(cis: real -> Complex, bytes: seq<Sample>, levels: nat)
    returns (re: array<real>, im: array<real>, present: bool, ghost x: seq<Complex>)
    requires IsRotation(cis)
    ensures present <==> |bytes| >= Pow2(levels)
    ensures present ==>
              var n := Pow2(levels);
              && re.Length == im.Length == |x| == n
              && (forall i :: 0 <= i < n ==> x[i] == Complex(bytes[i] as real - 128.0, 0.0))
              && forall k :: 0 <= k < n ==> Complex(re[k], im[k]) == Coefficient(x, cis, k)
  {
    hide Coefficient, IsRotation, Reverse;
    var size := Pow2(levels);
    re, im := new real[size](_ => 0.0), new real[size](_ => 0.0);
    present, x := |bytes| >= size, [];
    if present {
      for i := 0 to size
        invariant forall p :: 0 <= p < i ==> re[p] == bytes[p] as real - 128.0
        invariant forall p :: 0 <= p < size ==> im[p] == 0.0
      {
        re[i] := bytes[i] as real - 128.0;
      }
      x := Signal(re[..]);
      ReorderSamples(re, levels);
      Transform(cis, re, im, levels, x);
    }
  }
}
