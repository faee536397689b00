/**
 The discrete Fourier transform by its defining sum, and the halving identity that any
 radix-2 fast form rests on. `cis(t)` stands for cos(-2 pi t) + i sin(-2 pi t), with t
 counted in whole turns; all that is used of the two trigonometric functions is the
 angle-addition identity and their values at half a turn.
 */
module Dft {
  import opened Common
  import opened ComplexNumbers

  ghost predicate IsRotation(cis: real -> Complex) {
    && (forall s, t :: AddsAngles(cis, s, t))
    && cis(0.5) == Neg(ONE)
  }

  ghost predicate AddsAngles(cis: real -> Complex, s: real, t: real) {
    cis(s + t) == Mul(cis(s), cis(t))
  }

  /** The first n terms of sum over m of y[m] * cis(m k / |y|). */
  function DftSum(y: seq<Complex>, cis: real -> Complex, k: nat, n: nat): Complex
    requires n <= |y|
  {
    if n == 0 then ZERO
    else Add(DftSum(y, cis, k, n - 1), Mul(y[n - 1], cis(Phase(n - 1, k, |y|))))
  }

  /** Coefficient k of the transform of y. */
  function Coefficient(y: seq<Complex>, cis: real -> Complex, k: nat): Complex {
    DftSum(y, cis, k, |y|)
  }

  function Turns(a: int, n: nat): real
    requires n > 0
  {
    a as real / n as real
  }

  /** The angle of sample m in coefficient k of a transform of length n. */
  function Phase(m: nat, k: nat, n: nat): real
    requires n > 0
  {
    Turns(m * k, n)
  }

  /** Term by term, the sum adds sample n turned by n k / |y| of a whole turn. */
  lemma TermIs(y: seq<Complex>, cis: real -> Complex, k: nat, n: nat)
    requires n < |y|
    ensures DftSum(y, cis, k, 0) == Complex(0.0, 0.0) && Coefficient(y, cis, k) == DftSum(y, cis, k, |y|)
    ensures var before, after := DftSum(y, cis, k, n), DftSum(y, cis, k, n + 1);
            var turn := cis((n * k) as real / |y| as real);
            && after.re == before.re + (y[n].re * turn.re - y[n].im * turn.im)
            && after.im == before.im + (y[n].re * turn.im + y[n].im * turn.re)
  {
  }

  function Evens(y: seq<Complex>): (z: seq<Complex>)
    ensures |z| == |y| / 2
  {
    seq(|y| / 2, i requires 0 <= i < |y| / 2 => y[2 * i])
  }

  function Odds(y: seq<Complex>): (z: seq<Complex>)
    ensures |z| == |y| / 2
  {
    seq(|y| / 2, i requires 0 <= i < |y| / 2 => y[2 * i + 1])
  }

  // ---------------------------------------------------------------- angles

  /** Halving both terms of a fraction; an odd multiple splits off one extra step. */
  lemma HalfTurns(m: nat, k: nat, h: nat)
    requires h > 0
    ensures Phase(2 * m, k, 2 * h) == Phase(m, k, h)
    ensures Phase(2 * m + 1, k, 2 * h) == Phase(m, k, h) + Turns(k, 2 * h)
  {
    var q, r := Turns(m * k, h), Turns(k, 2 * h);
    var H := h as real;
    assert q * H == (m * k) as real;
    assert r * (2.0 * H) == k as real;
    assert (2 * m * k) as real == 2.0 * (m * k) as real == q * (2.0 * H);
    DividesBy((2 * m * k) as real, (2 * h) as real, q);
    assert (2 * m + 1) * k == 2 * (m * k) + k;
    assert ((2 * m + 1) * k) as real == 2.0 * (q * H) + r * (2.0 * H) == (q + r) * (2.0 * H);
    DividesBy(((2 * m + 1) * k) as real, (2 * h) as real, q + r);
  }

  /** Adding a whole period to the index adds whole turns, half a period adds half a turn. */
  lemma PeriodTurns(m: nat, k: nat, h: nat)
    requires h > 0
    ensures Phase(m, k + h, h) == Phase(m, k, h) + m as real
    ensures Turns(k + h, 2 * h) == Turns(k, 2 * h) + 0.5
  {
    var q, r := Turns(m * k, h), Turns(k, 2 * h);
    var H := h as real;
    assert q * H == (m * k) as real;
    assert r * (2.0 * H) == k as real;
    assert m * (k + h) == m * k + m * h;
    assert (m * h) as real == m as real * H;
    assert (m * (k + h)) as real == q * H + m as real * H == (q + m as real) * H;
    DividesBy((m * (k + h)) as real, H, q + m as real);
    assert (k + h) as real == r * (2.0 * H) + 0.5 * (2.0 * H) == (r + 0.5) * (2.0 * H);
    DividesBy((k + h) as real, (2 * h) as real, r + 0.5);
  }

  lemma HalfTurnNegates(cis: real -> Complex, t: real)
    requires IsRotation(cis)
    ensures cis(t + 0.5) == Neg(cis(t))
  {
    MulByNegated(cis(t), ONE);
    assert AddsAngles(cis, t, 0.5);
  }

  lemma OppositeTurn(cis: real -> Complex, k: nat, h: nat)
    requires IsRotation(cis) && h > 0
    ensures cis(Turns(k + h, 2 * h)) == Neg(cis(Turns(k, 2 * h)))
  {
    PeriodTurns(0, k, h);
    HalfTurnNegates(cis, Turns(k, 2 * h));
  }

  lemma TurnOnce(cis: real -> Complex, t: real)
    requires IsRotation(cis)
    ensures cis(t + 1.0) == cis(t)
  {
    HalfTurnNegates(cis, t);
    HalfTurnNegates(cis, t + 0.5);
    assert t + 0.5 + 0.5 == t + 1.0;
  }

  lemma NoTurn(cis: real -> Complex)
    requires IsRotation(cis)
    ensures cis(0.0) == ONE
  {
    HalfTurnNegates(cis, 0.0);
  }

  lemma {:induction false} WholeTurns(cis: real -> Complex, m: nat)
    requires IsRotation(cis)
    ensures cis(m as real) == ONE
  {
    hide IsRotation;
    if m == 0 {
      NoTurn(cis);
    } else {
      WholeTurns(cis, m - 1);
      TurnOnce(cis, (m - 1) as real);
    }
  }

  // ---------------------------------------------------------------- halving

  /** A transform of length 2h is two transforms of length h, the second one turned. */
  lemma {:induction false} Halving(y: seq<Complex>, cis: real -> Complex, k: nat, h: nat, n: nat)
    requires IsRotation(cis) && h > 0 && |y| == 2 * h && n <= h
    ensures DftSum(y, cis, k, 2 * n)
         == Add(DftSum(Evens(y), cis, k, n), Mul(cis(Turns(k, 2 * h)), DftSum(Odds(y), cis, k, n)))
  {
    hide Mul, Add, Phase, Turns;
    if n == 0 {
      NothingTurned(cis(Turns(k, 2 * h)));
    } else {
      var m := n - 1;
      var E, O := DftSum(Evens(y), cis, k, m), DftSum(Odds(y), cis, k, m);
      Halving(y, cis, k, h, m);
      HalfTurns(m, k, h);
      assert AddsAngles(cis, Phase(m, k, h), Turns(k, 2 * h));
      assert 2 * n - 1 == 2 * m + 1;
      InterleavedSum(E, O, y[2 * m], y[2 * m + 1], cis(Phase(m, k, h)), cis(Turns(k, 2 * h)));
    }
  }

  /** The transform is periodic in its index. */
  lemma {:induction false} Periodic(y: seq<Complex>, cis: real -> Complex, k: nat, n: nat)
    requires IsRotation(cis) && |y| > 0 && n <= |y|
    ensures DftSum(y, cis, k + |y|, n) == DftSum(y, cis, k, n)
  {
    if n > 0 {
      Periodic(y, cis, k, n - 1);
      PeriodTurns(n - 1, k, |y|);
      WholeTurns(cis, n - 1);
      assert AddsAngles(cis, Phase(n - 1, k, |y|), (n - 1) as real);
    }
  }

  /** One butterfly: the two coefficients k and k + h from the halves' coefficient k. */
  lemma Butterfly(y: seq<Complex>, cis: real -> Complex, k: nat, h: nat)
    requires IsRotation(cis) && k < h && |y| == 2 * h
    ensures var even, odd := Coefficient(Evens(y), cis, k), Coefficient(Odds(y), cis, k);
            var turned := Mul(cis(Turns(k, 2 * h)), odd);
            && Coefficient(y, cis, k) == Add(even, turned)
            && Coefficient(y, cis, k + h) == Sub(even, turned)
  {
    Halving(y, cis, k, h, h);
    UpperHalf(y, cis, k, h);
  }

  lemma UpperHalf(y: seq<Complex>, cis: real -> Complex, k: nat, h: nat)
    requires IsRotation(cis) && k < h && |y| == 2 * h
    ensures Coefficient(y, cis, k + h)
         == Sub(Coefficient(Evens(y), cis, k), Mul(cis(Turns(k, 2 * h)), Coefficient(Odds(y), cis, k)))
  {
    hide Mul, Add, Sub, Neg;
    Halving(y, cis, k + h, h, h);
    Periodic(Evens(y), cis, k, h);
    Periodic(Odds(y), cis, k, h);
    OppositeTurn(cis, k, h);
    AddNegated(Coefficient(Evens(y), cis, k), cis(Turns(k, 2 * h)), Coefficient(Odds(y), cis, k));
  }
}
