/**
 Lag-1 correlation in exact arithmetic, computed two ways: from centred samples in one batch,
 and from running sums of a stream. Up to r; p-values are not part of the model.
 */
module SerialCorrelation {
  import opened Common

  const CLAMP := 0.999999

  function Reals(data: seq<Sample>): (x: seq<real>)
    ensures |x| == |data|
  {
    seq(|data|, i requires 0 <= i < |data| => data[i] as real)
  }

  function Times(a: real, b: real): real {
    a * b
  }

  function Sum(x: seq<real>): real {
    if x == [] then 0.0 else Sum(x[..|x| - 1]) + x[|x| - 1]
  }

  function Squares(x: seq<real>): real {
    if x == [] then 0.0 else Squares(x[..|x| - 1]) + Times(x[|x| - 1], x[|x| - 1])
  }

  /** Sum of the products of neighbours. */
  function Products(x: seq<real>): real {
    if |x| < 2 then 0.0 else Products(x[..|x| - 1]) + Times(x[|x| - 2], x[|x| - 1])
  }

  function Centred(x: seq<real>, m: real): (y: seq<real>)
    ensures |y| == |x|
  {
    seq(|x|, i requires 0 <= i < |x| => x[i] - m)
  }

  function Mean(x: seq<real>): real
    requires x != []
  {
    Sum(x) / |x| as real
  }

  function BatchNumerator(x: seq<real>): real
    requires x != []
  {
    Products(Centred(x, Mean(x)))
  }

  function BatchDenominator(x: seq<real>): real
    requires x != []
  {
    Squares(Centred(x, Mean(x)))
  }

  /** The square of the sum over the count, which both running formulas subtract. */
  function MeanPart(x: seq<real>): real
    requires x != []
  {
    Sum(x) * Sum(x) / |x| as real
  }

  function StreamNumerator(x: seq<real>): real
    requires x != []
  {
    Products(x) - MeanPart(x)
  }

  function StreamDenominator(x: seq<real>): real
    requires x != []
  {
    Squares(x) - MeanPart(x)
  }

  /** Both programs pull a quotient of magnitude one or more just inside the open interval. */
  function Clamp(r: real): real {
    if r >= 1.0 then CLAMP else if r <= -1.0 then -CLAMP else r
  }

  /** What the batch code returns: nothing to say below four samples or for samples that do not vary. */
  function BatchResult(data: seq<Sample>): real {
    var x := Reals(data);
    if |data| < 4 || BatchDenominator(x) == 0.0 then 0.0 else Clamp(BatchNumerator(x) / BatchDenominator(x))
  }

  /** What the streaming code returns, which has three samples as its threshold. */
  function StreamResult(data: seq<Sample>): real {
    var x := Reals(data);
    if |data| < 3 || StreamDenominator(x) == 0.0 then 0.0 else Clamp(StreamNumerator(x) / StreamDenominator(x))
  }

  // ---------------------------------------------------------------- the two formulas compared

  function CentredSquares(squares: real, sum: real, count: int, m: real): real {
    squares - 2.0 * (m * sum) + count as real * (m * m)
  }

  function CentredProducts(products: real, sum: real, count: int, m: real, first: real, last: real): real {
    products - 2.0 * (m * sum) + m * first + m * last + (count - 1) as real * (m * m)
  }

  lemma OneMoreSquare(squares: real, sum: real, count: int, m: real, a: real)
    ensures CentredSquares(squares + Times(a, a), sum + a, count + 1, m)
         == CentredSquares(squares, sum, count, m) + Times(a - m, a - m)
  {
    assert (count + 1) as real * (m * m) == count as real * (m * m) + m * m;
    assert (a - m) * (a - m) == a * a - 2.0 * (m * a) + m * m;
  }

  lemma OneMoreProduct(products: real, sum: real, count: int, m: real, first: real, last: real, a: real)
    ensures CentredProducts(products + Times(last, a), sum + a, count + 1, m, first, a)
         == CentredProducts(products, sum, count, m, first, last) + Times(last - m, a - m)
  {
    assert (count + 1 - 1) as real * (m * m) == (count - 1) as real * (m * m) + m * m;
    assert (last - m) * (a - m) == last * a - m * a - m * last + m * m;
  }

  lemma {:induction false} CentredSums(x: seq<real>, m: real)
    requires x != []
    ensures Squares(Centred(x, m)) == CentredSquares(Squares(x), Sum(x), |x|, m)
    ensures Products(Centred(x, m)) == CentredProducts(Products(x), Sum(x), |x|, m, x[0], x[|x| - 1])
  {
    var n := |x| - 1;
    var y := Centred(x, m);
    assert y[..n] == Centred(x[..n], m);
    hide CentredSquares, CentredProducts, Times;
    if n == 0 {
      FirstSample(x[0], m);
      assert y[..0] == [] && x[..0] == [];
    } else {
      CentredSums(x[..n], m);
      OneMoreSquare(Squares(x[..n]), Sum(x[..n]), n, m, x[n]);
      OneMoreProduct(Products(x[..n]), Sum(x[..n]), n, m, x[0], x[n - 1], x[n]);
    }
  }

  lemma FirstSample(a: real, m: real)
    ensures CentredSquares(Times(a, a), a, 1, m) == Times(a - m, a - m)
    ensures CentredProducts(0.0, a, 1, m, a, a) == 0.0
  {
  }

  lemma MeanTimesSum(x: seq<real>)
    requires x != []
    ensures |x| as real * (Mean(x) * Mean(x)) == Mean(x) * Sum(x) == MeanPart(x)
  {
    var n, s, m := |x| as real, Sum(x), Mean(x);
    assert s == m * n;
    assert n * (m * m) == m * (m * n);
    assert s * s == (m * s) * n;
    DividesBy(s * s, n, m * s);
  }

  /**
   The two denominators are equal for every input. The numerators differ by the end terms
   that the running sums never subtract.
   */
  lemma FormulasRelate(x: seq<real>)
    requires x != []
    ensures BatchDenominator(x) == StreamDenominator(x)
    ensures BatchNumerator(x) == StreamNumerator(x) + Mean(x) * (x[0] + x[|x| - 1] - Mean(x))
  {
    hide Squares, Products, Sum, Mean, MeanPart;
    CentredSums(x, Mean(x));
    MeanTimesSum(x);
    EndTerms(Mean(x), |x|, x[0], x[|x| - 1]);
  }

  lemma EndTerms(m: real, count: int, first: real, last: real)
    ensures (count - 1) as real * (m * m) == count as real * (m * m) - m * m
    ensures m * (first + last - m) == m * first + m * last - m * m
  {
  }

  /**
   With a nonzero denominator the two unclamped quotients agree exactly for a zero mean or when the
   ends add up to the mean.
   */
  lemma QuotientsAgreeExactlyWhen(x: seq<real>)
    requires x != [] && BatchDenominator(x) != 0.0
    ensures StreamDenominator(x) == BatchDenominator(x)
    ensures BatchNumerator(x) / BatchDenominator(x) == StreamNumerator(x) / BatchDenominator(x)
       <==> Mean(x) == 0.0 || x[0] + x[|x| - 1] == Mean(x)
  {
    hide BatchNumerator, BatchDenominator, StreamNumerator, StreamDenominator, Mean;
    FormulasRelate(x);
    SameQuotient(BatchNumerator(x), StreamNumerator(x), BatchDenominator(x));
    ZeroProduct(Mean(x), x[0] + x[|x| - 1] - Mean(x));
  }

  lemma SameQuotient(a: real, b: real, d: real)
    requires d != 0.0
    ensures a / d == b / d <==> a == b
  {
    assert a / d * d == a && b / d * d == b;
  }

  lemma ZeroProduct(a: real, b: real)
    ensures a * b == 0.0 <==> a == 0.0 || b == 0.0
  {
    if a != 0.0 && a * b == 0.0 {
      assert b == a * b / a;
    }
  }

  // ---------------------------------------------------------------- bounds

  lemma SquareNonnegative(a: real)
    ensures a * a >= 0.0
    ensures a * a == 0.0 <==> a == 0.0
  {
    ZeroProduct(a, a);
  }

  lemma TwiceProduct(a: real, b: real)
    ensures -(Times(a, a) + Times(b, b)) <= 2.0 * Times(a, b) <= Times(a, a) + Times(b, b)
  {
    SquareNonnegative(a - b);
    SquareNonnegative(a + b);
    assert (a - b) * (a - b) == a * a - 2.0 * (a * b) + b * b;
    assert (a + b) * (a + b) == a * a + 2.0 * (a * b) + b * b;
  }

  /** Neighbouring products fall short of the squares by at least half the squares of both ends. */
  lemma {:induction false} ProductsBelowSquares(x: seq<real>)
    requires x != []
    ensures var ends := Times(x[0], x[0]) + Times(x[|x| - 1], x[|x| - 1]);
            -2.0 * Squares(x) + ends <= 2.0 * Products(x) <= 2.0 * Squares(x) - ends
  {
    hide Times;
    var n := |x| - 1;
    if n == 0 {
      assert Squares(x[..0]) == 0.0;
    } else {
      ProductsBelowSquares(x[..n]);
      TwiceProduct(x[n - 1], x[n]);
    }
  }

  /** Unless every sample is zero, the products stay strictly inside the squares. */
  lemma {:induction false} ProductsStrictlyBelowSquares(x: seq<real>)
    requires Squares(x) != 0.0
    ensures -Squares(x) < Products(x) < Squares(x)
  {
    var n := |x| - 1;
    SquareNonnegative(x[n]);
    if x[n] == 0.0 {
      assert Squares(x) == Squares(x[..n]);
      ProductsStrictlyBelowSquares(x[..n]);
      if n > 0 {
        assert x[n - 1] * x[n] == 0.0;
      }
    } else {
      ProductsBelowSquares(x);
      SquareNonnegative(x[0]);
    }
  }

  /** The batch quotient lies strictly between -1 and 1 whenever it is formed: its clamps are never taken. */
  lemma BatchStaysInside(x: seq<real>)
    requires x != [] && BatchDenominator(x) != 0.0
    ensures BatchDenominator(x) > 0.0
    ensures -1.0 < BatchNumerator(x) / BatchDenominator(x) < 1.0
  {
    var n, d := BatchNumerator(x), BatchDenominator(x);
    ProductsStrictlyBelowSquares(Centred(x, Mean(x)));
    QuotientBounds(n, d);
  }

  lemma QuotientBounds(n: real, d: real)
    requires d > 0.0
    ensures n < d <==> n / d < 1.0
    ensures n > -d <==> n / d > -1.0
  {
    var q := n / d;
    assert n == q * d;
    if q < 1.0 { assert q * d < 1.0 * d; } else { assert q * d >= 1.0 * d; }
    if q > -1.0 { assert q * d > -1.0 * d; } else { assert q * d <= -1.0 * d; }
  }

  /** The squares of the sums of neighbours, where both ends have one neighbour that is zero. */
  function NeighbourSquares(x: seq<real>): real {
    if x == [] then 0.0
    else
      var n := |x| - 1;
      Inner(x) + Times(x[n], x[n])
  }

  /** The same without the last end. */
  function Inner(x: seq<real>): real
    requires x != []
  {
    var n := |x| - 1;
    if n == 0 then Times(x[0], x[0]) else Inner(x[..n]) + Times(x[n - 1] + x[n], x[n - 1] + x[n])
  }

  lemma {:induction false} NeighbourSquaresAre(x: seq<real>)
    ensures NeighbourSquares(x) == 2.0 * (Products(x) + Squares(x))
  {
    hide Times;
    if x != [] {
      var n := |x| - 1;
      if n == 0 {
        assert x[..0] == [] && Squares(x[..0]) == 0.0;
      } else {
        NeighbourSquaresAre(x[..n]);
        SquareOfSum(x[n - 1], x[n]);
      }
    }
  }

  lemma SquareOfSum(a: real, b: real)
    ensures Times(a + b, a + b) == Times(a, a) + 2.0 * Times(a, b) + Times(b, b)
  {
  }

  /**
   The n + 1 neighbour sums, whose total is twice the sum of the samples, are nearly equal: n times
   their squares stay within the square of their total. Equal sums would reach n + 1 times.
   */
  predicate EvenNeighbours(x: seq<real>)
    requires x != []
  {
    |x| as real * NeighbourSquares(x) <= Times(2.0 * Sum(x), 2.0 * Sum(x))
  }

  lemma MeanPartIs(x: seq<real>)
    requires x != []
    ensures |x| as real * MeanPart(x) == Times(Sum(x), Sum(x))
    ensures |x| as real * (4.0 * MeanPart(x)) == Times(2.0 * Sum(x), 2.0 * Sum(x))
  {
    hide Sum;
    var n, s, q := |x| as real, Sum(x), MeanPart(x);
    assert q == s * s / n;
    assert n * q == s * s;
    assert n * (4.0 * q) == 4.0 * (n * q) == (2.0 * s) * (2.0 * s);
  }

  lemma EvenNeighboursAre(x: seq<real>)
    requires x != []
    ensures EvenNeighbours(x) <==> Products(x) + Squares(x) <= 2.0 * MeanPart(x)
  {
    hide Sum, Squares, Products, NeighbourSquares;
    NeighbourSquaresAre(x);
    MeanPartIs(x);
    Scaled(NeighbourSquares(x), 4.0 * MeanPart(x), |x| as real);
  }

  lemma Scaled(a: real, b: real, n: real)
    requires n > 0.0
    ensures a <= b <==> n * a <= n * b
    ensures a == b <==> n * a == n * b
  {
    if a <= b {
      assert n * (b - a) >= 0.0;
    } else {
      assert n * (a - b) > 0.0;
    }
  }

  /**
   The streaming quotient is always below 1, so its upper clamp is dead too; its lower clamp is
   taken exactly for samples whose neighbours add up to nearly the same value throughout.
   */
  lemma StreamStaysBelowOne(x: seq<real>)
    requires x != [] && StreamDenominator(x) != 0.0
    ensures StreamDenominator(x) > 0.0
    ensures StreamNumerator(x) / StreamDenominator(x) < 1.0
    ensures StreamNumerator(x) / StreamDenominator(x) <= -1.0 <==> EvenNeighbours(x)
  {
    EvenNeighboursAre(x);
    hide MeanPart, BatchNumerator, BatchDenominator, EvenNeighbours;
    FormulasRelate(x);
    BatchStaysInside(x);
    if Squares(x) == 0.0 {
      AllZero(x);
      assert MeanPart(x) == 0.0 by { ZeroMeanPart(x); }
    } else {
      ProductsStrictlyBelowSquares(x);
    }
    QuotientBounds(StreamNumerator(x), StreamDenominator(x));
  }

  lemma ZeroMeanPart(x: seq<real>)
    requires x != [] && Sum(x) == 0.0
    ensures MeanPart(x) == 0.0
  {
  }

  lemma {:induction false} AllZero(x: seq<real>)
    requires Squares(x) == 0.0
    ensures Sum(x) == 0.0 && Products(x) == 0.0
  {
    if x != [] {
      var n := |x| - 1;
      SquaresNonnegative(x[..n]);
      SquareNonnegative(x[n]);
      AllZero(x[..n]);
      if n > 0 {
        assert x[n - 1] * x[n] == 0.0;
      }
    }
  }

  lemma {:induction false} SquaresNonnegative(x: seq<real>)
    ensures Squares(x) >= 0.0
  {
    if x != [] {
      SquaresNonnegative(x[..|x| - 1]);
      SquareNonnegative(x[|x| - 1]);
    }
  }

  const CLAMPED: seq<real> := [1.0, 0.0, 0.0, 1.0]

  lemma ClampedSums()
    ensures Sum(CLAMPED) == 2.0 && Squares(CLAMPED) == 2.0 && Products(CLAMPED) == 0.0
  {
    var x := CLAMPED;
    assert x[..3] == [1.0, 0.0, 0.0] && x[..3][..2] == [1.0, 0.0] && [1.0, 0.0][..1] == [1.0];
    assert Sum([1.0]) == 1.0 && Sum([1.0, 0.0]) == 1.0 && Sum([1.0, 0.0, 0.0]) == 1.0;
    assert Squares([1.0]) == 1.0 && Squares([1.0, 0.0]) == 1.0 && Squares([1.0, 0.0, 0.0]) == 1.0;
    assert Products([1.0, 0.0]) == 0.0 && Products([1.0, 0.0, 0.0]) == 0.0;
  }

  /** Four samples on which the lower streaming clamp is taken while the batch value is -1/4. */
  lemma ClampedExample()
    ensures StreamDenominator(CLAMPED) == BatchDenominator(CLAMPED) == 1.0
    ensures StreamNumerator(CLAMPED) == -1.0 && BatchNumerator(CLAMPED) == -0.25
  {
    hide Sum, Squares, Products, BatchNumerator, BatchDenominator;
    ClampedSums();
    FormulasRelate(CLAMPED);
  }

  // ---------------------------------------------------------------- the batch computation

  /** The first loop: the sum of the samples, divided by their number. */
  method MeanOf(data: seq<Sample>) returns (mean: real)
    requires data != []
    ensures mean == Mean(Reals(data))
  {
    ghost var x := Reals(data);
    var sum := 0.0;
    for i := 0 to |data|
      invariant sum == Sum(x[..i])
    {
      assert x[..i + 1][..i] == x[..i];
      sum := sum + data[i] as real;
    }
    assert x[..|data|] == x;
    mean := sum / |data| as real;
  }

  /** The second loop, which leaves the last square to be added afterwards. */
  method CentredLoop(data: seq<Sample>, mean: real) returns (num: real, den: real)
    requires data != []
    ensures num == Products(Centred(Reals(data), mean)) && den == Squares(Centred(Reals(data), mean))
  {
    hide Times;
    ghost var y := Centred(Reals(data), mean);
    var n := |data|;
    num, den := 0.0, 0.0;
    for i := 0 to n - 1
      invariant num == Products(y[..i + 1]) && den == Squares(y[..i])
    {
      var a := data[i] as real - mean;
      var b := data[i + 1] as real - mean;
      assert y[..i + 2][..i + 1] == y[..i + 1] && y[..i + 1][..i] == y[..i];
      num := num + Times(a, b);
      den := den + Times(data[i] as real - mean, data[i] as real - mean);
    }
    assert y[..n] == y;
    den := den + Times(data[n - 1] as real - mean, data[n - 1] as real - mean);
  }

  /** diag.go: the mean first, then centred products and squares, then the guarded quotient. */
  method BatchCorrelation(data: seq<Sample>) returns (r: real)
    ensures r == BatchResult(data)
    ensures -1.0 < r < 1.0 && (|data| >= 4 && BatchDenominator(Reals(data)) != 0.0 ==>
                                 r == BatchNumerator(Reals(data)) / BatchDenominator(Reals(data)))
  {
    if |data| < 4 {
      return 0.0;
    }
    var mean := MeanOf(data);
    var num, den := CentredLoop(data, mean);
    hide Squares, Products, Mean, Centred;
    if den == 0.0 {
      return 0.0;
    }
    r := num / den;
    BatchStaysInside(Reals(data));
    if r >= 1.0 {
      r := CLAMP;
    }
    if r <= -1.0 {
      r := -CLAMP;
    }
  }
}
