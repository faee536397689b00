/**
 When the batch and the streaming code return the same correlation for the same bytes, with
 their different thresholds and their clamps. All conditions are on sums of the bytes.
 */
module CorrelationAgreement {
  import opened Common
  import opened SerialCorrelation

  predicate Constant(data: seq<Sample>) {
    forall i :: 0 <= i < |data| ==> data[i] == data[0]
  }

  /** The first and last samples together make up the mean. */
  predicate EndsReachMean(x: seq<real>)
    requires x != []
  {
    Times(|x| as real, x[0] + x[|x| - 1]) == Sum(x)
  }

  function NumeratorTerms(n: real, sum: real, products: real, ends: real): real {
    n * n * products - n * sum * sum + sum * (n * ends - sum)
  }

  function DenominatorTerms(n: real, sum: real, squares: real): real {
    n * n * squares - n * sum * sum
  }

  /** n squared times the batch numerator, and times the common denominator. */
  function ScaledNumerator(x: seq<real>): real
    requires x != []
  {
    NumeratorTerms(|x| as real, Sum(x), Products(x), x[0] + x[|x| - 1])
  }

  function ScaledDenominator(x: seq<real>): real
    requires x != []
  {
    DenominatorTerms(|x| as real, Sum(x), Squares(x))
  }

  /** The unclamped quotient is the clamp itself, -999999/1000000. */
  predicate MeetsClamp(x: seq<real>)
    requires x != []
  {
    1000000.0 * ScaledNumerator(x) == -999999.0 * ScaledDenominator(x)
  }

  /**
   For every input the two results are equal exactly when there are fewer than three bytes, or all
   bytes are equal, or there are at least four and either the streaming value is not clamped and
   the ends reach the mean, or it is clamped and the batch value happens to be the clamp.
   */
  lemma ResultsAgreeExactlyWhen(data: seq<Sample>)
    ensures StreamResult(data) == BatchResult(data)
       <==> || |data| < 3
            || Constant(data)
            || (|data| >= 4 && var x := Reals(data); if EvenNeighbours(x) then MeetsClamp(x) else EndsReachMean(x))
  {
    if |data| >= 3 {
      var x := Reals(data);
      hide EvenNeighbours, MeetsClamp, EndsReachMean, Constant, StreamNumerator, StreamDenominator, BatchNumerator,
           BatchDenominator;
      ConstantExactlyWhen(data);
      FormulasRelate(x);
      if BatchDenominator(x) != 0.0 {
        StreamStaysBelowOne(x);
        BatchStaysInside(x);
        if |data| == 3 {
          ThreeNeverCancel(data);
        } else if EvenNeighbours(x) {
          MeetsClampIs(x);
        } else {
          EndsReachMeanIs(data);
        }
      }
    }
  }

  // ---------------------------------------------------------------- equal bytes

  lemma {:induction false} SumOfEqual(x: seq<real>, a: real)
    requires forall i :: 0 <= i < |x| ==> x[i] == a
    ensures Sum(x) == |x| as real * a
  {
    if x != [] {
      var n := |x| - 1;
      SumOfEqual(x[..n], a);
      assert |x| as real * a == n as real * a + a;
    }
  }

  lemma {:induction false} NoSquares(y: seq<real>)
    ensures Squares(y) == 0.0 <==> forall i :: 0 <= i < |y| ==> y[i] == 0.0
  {
    if y != [] {
      var n := |y| - 1;
      NoSquares(y[..n]);
      SquaresNonnegative(y[..n]);
      SquareNonnegative(y[n]);
    }
  }

  lemma ConstantExactlyWhen(data: seq<Sample>)
    requires data != []
    ensures Constant(data) <==> BatchDenominator(Reals(data)) == 0.0
  {
    hide Sum, Squares;
    var x := Reals(data);
    var y := Centred(x, Mean(x));
    NoSquares(y);
    if Constant(data) {
      var a := x[0];
      SumOfEqual(x, a);
      DividesBy(Sum(x), |x| as real, a);
      assert Mean(x) == a;
    }
    if Squares(y) == 0.0 {
      forall i | 0 <= i < |data| ensures data[i] == data[0] {
        assert y[i] == 0.0 && y[0] == 0.0;
        assert x[i] == x[0];
      }
    }
  }

  // ---------------------------------------------------------------- three bytes

  lemma ThreeSums(x: seq<real>)
    requires |x| == 3
    ensures Sum(x) == x[0] + x[1] + x[2] && Products(x) == Times(x[0], x[1]) + Times(x[1], x[2])
  {
    hide Times;
    var y, z := x[..2], [x[0]];
    assert y == [x[0], x[1]] && y[..1] == z && z[..0] == [];
    assert Sum(z) == x[0] && Sum(y) == x[0] + x[1] && Sum(x) == Sum(y) + x[2];
    assert Products(z) == 0.0 && Products(y) == Times(x[0], x[1]) && Products(x) == Products(y) + Times(x[1], x[2]);
  }

  lemma NeverBalanced(b: real, t: real)
    requires 3.0 * (b * t) == (b + t) * (b + t)
    ensures b == 0.0 && t == 0.0
  {
    var h := b - t / 2.0;
    assert h * h + 0.75 * (t * t) == 0.0;
    SquareNonnegative(h);
    SquareNonnegative(t);
  }

  /**
   Three bytes that differ never have a streaming correlation of zero, which is all the batch code
   returns for them.
   */
  lemma ThreeNeverCancel(data: seq<Sample>)
    requires |data| == 3 && StreamDenominator(Reals(data)) != 0.0
    ensures StreamResult(data) != 0.0 && BatchResult(data) == 0.0
  {
    var x := Reals(data);
    var n, d := StreamNumerator(x), StreamDenominator(x);
    if n == 0.0 {
      ThreeSums(x);
      MeanPartIs(x);
      var b, t := x[1], x[0] + x[2];
      assert Products(x) == b * t;
      assert 3.0 * (b * t) == (b + t) * (b + t);
      NeverBalanced(b, t);
      assert x[0] == 0.0 && x[2] == 0.0;
      assert data[0] == 0 && data[1] == 0 && data[2] == 0;
      FormulasRelate(x);
      ConstantExactlyWhen(data);
    } else {
      NonzeroQuotient(n, d);
    }
  }

  lemma NonzeroQuotient(n: real, d: real)
    requires n != 0.0 && d != 0.0
    ensures n / d != 0.0
  {
    assert n / d * d == n;
  }

  // ---------------------------------------------------------------- four bytes and more

  /** Where nothing is clamped the two agree exactly when the ends reach the mean. */
  lemma EndsReachMeanIs(data: seq<Sample>)
    requires data != [] && BatchDenominator(Reals(data)) != 0.0
    ensures var x := Reals(data);
            && StreamDenominator(x) == BatchDenominator(x)
            && (StreamNumerator(x) / StreamDenominator(x) == BatchNumerator(x) / BatchDenominator(x)
               <==> EndsReachMean(x))
  {
    var x := Reals(data);
    hide BatchDenominator, StreamDenominator, BatchNumerator, StreamNumerator, Sum, Mean, Times;
    FormulasRelate(x);
    QuotientsAgreeExactlyWhen(x);
    MeanIsZeroOnlyForZeros(data);
    SumIsMean(x);
    ProductsAgree(|x| as real, x[0] + x[|x| - 1], Mean(x));
  }

  lemma SumIsMean(x: seq<real>)
    requires x != []
    ensures Sum(x) == Times(|x| as real, Mean(x))
  {
    hide Sum;
  }

  lemma ProductsAgree(n: real, a: real, b: real)
    requires n > 0.0
    ensures Times(n, a) == Times(n, b) <==> a == b
  {
    Scaled(a, b, n);
  }

  lemma {:induction false} SumAtLeast(data: seq<Sample>, i: nat)
    requires i < |data|
    ensures Sum(Reals(data)) >= data[i] as real
    decreases |data|
  {
    var n := |data| - 1;
    assert Reals(data)[..n] == Reals(data[..n]);
    if i < n {
      SumAtLeast(data[..n], i);
    } else if n > 0 {
      SumAtLeast(data[..n], 0);
    }
  }

  lemma MeanIsZeroOnlyForZeros(data: seq<Sample>)
    requires data != [] && BatchDenominator(Reals(data)) != 0.0
    ensures Mean(Reals(data)) != 0.0
  {
    hide Sum;
    if Mean(Reals(data)) == 0.0 {
      SumIsMean(Reals(data));
      forall i | 0 <= i < |data| ensures data[i] == 0 {
        SumAtLeast(data, i);
      }
      ConstantExactlyWhen(data);
    }
  }

  lemma ScaledFormulas(x: seq<real>)
    requires x != []
    ensures var w := Times(|x| as real, |x| as real);
            && ScaledNumerator(x) == Times(w, BatchNumerator(x))
            && ScaledDenominator(x) == Times(w, BatchDenominator(x))
  {
    hide Times, Sum, Squares, Products, Mean, MeanPart, BatchNumerator, BatchDenominator, NumeratorTerms,
         DenominatorTerms;
    FormulasRelate(x);
    MeanPartIs(x);
    SumIsMean(x);
    var m, ends := Mean(x), x[0] + x[|x| - 1];
    assert BatchNumerator(x) == Products(x) - MeanPart(x) + m * (ends - m);
    NumeratorIs(|x| as real, m, Sum(x), MeanPart(x), Products(x), ends);
    DenominatorIs(|x| as real, Sum(x), MeanPart(x), Squares(x));
  }

  lemma NumeratorIs(n: real, m: real, s: real, part: real, products: real, ends: real)
    requires s == Times(n, m) && n * part == Times(s, s)
    ensures NumeratorTerms(n, s, products, ends) == Times(Times(n, n), products - part + m * (ends - m))
  {
    assert n * s * s == n * (n * part) == (n * n) * part;
    var e := ends - m;
    assert n * ends - s == n * e;
    assert s * (n * e) == (n * n) * (m * e);
  }

  lemma DenominatorIs(n: real, s: real, part: real, squares: real)
    requires n * part == Times(s, s)
    ensures DenominatorTerms(n, s, squares) == Times(Times(n, n), squares - part)
  {
    assert n * s * s == n * (n * part) == (n * n) * part;
  }

  /** The batch value is the clamp exactly when the scaled sums say so. */
  lemma MeetsClampIs(x: seq<real>)
    requires x != [] && BatchDenominator(x) != 0.0
    ensures BatchNumerator(x) / BatchDenominator(x) == -CLAMP <==> MeetsClamp(x)
  {
    hide BatchNumerator, BatchDenominator, ScaledNumerator, ScaledDenominator, Times;
    ScaledFormulas(x);
    Positive(|x| as real);
    ClampEquation(Times(|x| as real, |x| as real), BatchNumerator(x), BatchDenominator(x));
  }

  lemma Positive(n: real)
    requires n > 0.0
    ensures Times(n, n) > 0.0
  {
    SquareNonnegative(n);
  }

  lemma ClampEquation(w: real, a: real, d: real)
    requires w > 0.0 && d != 0.0
    ensures a / d == -CLAMP <==> 1000000.0 * Times(w, a) == -999999.0 * Times(w, d)
  {
    var q := a / d;
    assert a == q * d;
    Scaled(1000000.0 * a, -999999.0 * d, w);
    assert w * (1000000.0 * a) == 1000000.0 * Times(w, a);
    assert w * (-999999.0 * d) == -999999.0 * Times(w, d);
    if 1000000.0 * a == -999999.0 * d {
      assert a == -CLAMP * d;
      SameQuotient(a, -CLAMP * d, d);
      DividesBy(-CLAMP * d, d, -CLAMP);
    }
  }

  // ---------------------------------------------------------------- the clamped case needs length

  lemma StepBound(a: real, b: real, m: real, inner: real)
    requires m > 0.0 && Times(b, b) <= Times(m, inner)
    ensures Times(a, a) <= Times(m + 1.0, inner + Times(b + a, b + a))
  {
    var c := b + a;
    SquareNonnegative(m * c + b);
    var gap := (m + 1.0) * (inner + c * c) - a * a;
    assert m * gap == (m + 1.0) * (m * inner) + (m + 1.0) * (m * (c * c)) - m * (a * a);
    assert (m + 1.0) * (m * inner - b * b) >= 0.0;
    assert a == c - b;
    assert m * (a * a) == m * (c * c) - 2.0 * (m * (c * b)) + m * (b * b);
    assert (m * c + b) * (m * c + b) == m * (m * (c * c)) + 2.0 * (m * (c * b)) + b * b;
    assert m * gap >= 0.0;
  }

  /** A sample is an alternating sum of the neighbour sums up to it, and so bounded by them. */
  lemma {:induction false} SampleBound(y: seq<real>)
    requires y != []
    ensures var a := y[|y| - 1]; Times(a, a) <= Times(|y| as real, Inner(y))
  {
    var m := |y| - 1;
    if m > 0 {
      SampleBound(y[..m]);
      StepBound(y[m], y[m - 1], m as real, Inner(y[..m]));
    }
  }

  lemma GrowingBound(m: real, squares: real, inner: real, a2: real, c2: real)
    requires m >= 0.0 && c2 >= 0.0
    requires 2.0 * squares <= Times(m * (m + 1.0), inner)
    requires a2 <= Times(m + 1.0, inner + c2)
    ensures 2.0 * (squares + a2) <= Times((m + 1.0) * (m + 2.0), inner + c2)
  {
    var w := m * (m + 1.0);
    assert w * c2 >= 0.0;
    assert (m + 1.0) * (m + 2.0) == w + 2.0 * (m + 1.0);
    var v := inner + c2;
    assert (w + 2.0 * (m + 1.0)) * v == w * v + 2.0 * ((m + 1.0) * v);
    assert w * v == w * inner + w * c2;
  }

  lemma {:induction false} SquaresBound(y: seq<real>)
    requires y != []
    ensures 2.0 * Squares(y) <= Times(|y| as real * (|y| as real + 1.0), Inner(y))
  {
    hide Times;
    var m := |y| - 1;
    SampleBound(y);
    if m == 0 {
      assert Squares(y[..0]) == 0.0;
      OneSample(y[0]);
    } else {
      SquaresBound(y[..m]);
      NonnegativeSquare(y[m - 1] + y[m]);
      GrowingBound(m as real, Squares(y[..m]), Inner(y[..m]), Times(y[m], y[m]),
                   Times(y[m - 1] + y[m], y[m - 1] + y[m]));
    }
  }

  lemma OneSample(a: real)
    ensures Times(1.0 * 2.0, Times(a, a)) == 2.0 * Times(a, a)
  {
  }

  lemma NonnegativeSquare(a: real)
    ensures Times(a, a) >= 0.0
  {
    SquareNonnegative(a);
  }

  /** For n samples the batch quotient is never below -1 + 1/(n (n + 1)). */
  lemma BatchStaysAbove(x: seq<real>)
    requires x != []
    ensures BatchDenominator(x) <= Times(|x| as real * (|x| as real + 1.0), BatchNumerator(x) + BatchDenominator(x))
  {
    hide Times, Squares, Products, Mean, Inner, NeighbourSquares;
    var y, w := Centred(x, Mean(x)), |x| as real * (|x| as real + 1.0);
    SquaresBound(y);
    NeighbourSquaresAre(y);
    InnerAtMost(y);
    HalfOf(w, Inner(y), BatchNumerator(x) + BatchDenominator(x), BatchDenominator(x));
  }

  lemma InnerAtMost(y: seq<real>)
    requires y != []
    ensures Inner(y) <= NeighbourSquares(y)
  {
    SquareNonnegative(y[|y| - 1]);
  }

  lemma HalfOf(w: real, inner: real, sum: real, squares: real)
    requires w >= 0.0 && inner <= 2.0 * sum && 2.0 * squares <= Times(w, inner)
    ensures squares <= Times(w, sum)
  {
    assert w * (2.0 * sum - inner) >= 0.0;
  }

  /** Below a thousand bytes the batch value cannot be as low as the clamp. */
  lemma ClampNeedsLength(x: seq<real>)
    requires 0 < |x| < 1000 && BatchDenominator(x) != 0.0
    ensures !MeetsClamp(x)
  {
    hide Times, BatchNumerator, BatchDenominator, MeetsClamp;
    BatchStaysAbove(x);
    BatchStaysInside(x);
    MeetsClampIs(x);
    var a, d := BatchNumerator(x), BatchDenominator(x);
    if a / d == -CLAMP {
      assert a == -CLAMP * d;
      assert a + d == d / 1000000.0;
      TooFew(|x| as real, d);
    }
  }

  lemma TooFew(n: real, d: real)
    requires 0.0 <= n <= 999.0 && d > 0.0
    ensures Times(n * (n + 1.0), d / 1000000.0) < d
  {
    hide Times;
    var e, w := d / 1000000.0, n * (n + 1.0);
    Grows(n, 999.0, n);
    assert w == n * n + n && n * n <= 999.0 * n by {
      TimesIs(n, n);
      TimesIs(999.0, n);
    }
    Grows(w, 999000.0, e);
    TimesIs(999000.0, e);
  }

  lemma Grows(a: real, b: real, c: real)
    requires a <= b && c >= 0.0
    ensures Times(a, c) <= Times(b, c)
  {
    assert (b - a) * c >= 0.0;
  }

  lemma TimesIs(a: real, b: real)
    ensures Times(a, b) == a * b
  {
  }

  /** Below a thousand bytes a clamped streaming value never agrees, and the condition is that of the ends alone. */
  lemma ShortResultsAgreeExactlyWhen(data: seq<Sample>)
    requires |data| < 1000
    ensures StreamResult(data) == BatchResult(data)
       <==> || |data| < 3
            || Constant(data)
            || (|data| >= 4 && !EvenNeighbours(Reals(data)) && EndsReachMean(Reals(data)))
  {
    hide StreamResult, BatchResult, EvenNeighbours, EndsReachMean, MeetsClamp, Constant, BatchDenominator;
    ResultsAgreeExactlyWhen(data);
    if data != [] {
      ConstantExactlyWhen(data);
      if !Constant(data) {
        ClampNeedsLength(Reals(data));
      }
    }
  }

  // ---------------------------------------------------------------- examples

  lemma ThresholdSums(x: seq<real>)
    requires x == [1.0, 2.0, 0.0]
    ensures Sum(x) == 3.0 && Products(x) == 2.0 && Squares(x) == 5.0
  {
    ThreeSums(x);
    assert x[..2] == [1.0, 2.0] && x[..2][..1] == [1.0];
    assert Squares([1.0]) == 1.0 && Squares([1.0, 2.0]) == 5.0;
  }

  /** At three bytes only the streaming code answers. */
  lemma ThresholdExample()
    ensures StreamResult([1, 2, 0]) == -0.5 && BatchResult([1, 2, 0]) == 0.0
  {
    hide Sum, Squares, Products;
    var x := Reals([1, 2, 0]);
    assert x == [1.0, 2.0, 0.0];
    ThresholdSums(x);
    assert MeanPart(x) == 3.0;
  }

  /** Four bytes on which the streaming code clamps while the batch code returns -1/4. */
  lemma ClampExample()
    ensures StreamResult([1, 0, 0, 1]) == -0.999999 && BatchResult([1, 0, 0, 1]) == -0.25
  {
    hide StreamNumerator, StreamDenominator, BatchNumerator, BatchDenominator;
    assert Reals([1, 0, 0, 1]) == CLAMPED;
    ClampedExample();
  }

  /** The bytes 0 and 2 in turn. */
  function Alternating(pairs: nat): (data: seq<Sample>)
    ensures |data| == 2 * pairs
  {
    seq(2 * pairs, i requires 0 <= i < 2 * pairs => if i % 2 == 0 then 0 else 2)
  }

  lemma {:induction false} AlternatingSums(pairs: nat)
    ensures var x := Reals(Alternating(pairs));
            Sum(x) == 2.0 * pairs as real && Squares(x) == 4.0 * pairs as real && Products(x) == 0.0
  {
    if pairs > 0 {
      var x, n := Reals(Alternating(pairs)), 2 * pairs;
      AlternatingSums(pairs - 1);
      assert x[..n - 1][..n - 2] == Reals(Alternating(pairs - 1));
      assert x[n - 1] == 2.0 && x[n - 2] == 0.0;
      assert Sum(x[..n - 1]) == Sum(x[..n - 1][..n - 2]);
      assert Squares(x[..n - 1]) == Squares(x[..n - 1][..n - 2]);
      assert Products(x[..n - 1]) == 0.0;
    }
  }

  /** A million bytes on which the clamped streaming value and the batch value coincide. */
  lemma CoincidenceExample()
    ensures EvenNeighbours(Reals(Alternating(500000)))
    ensures StreamResult(Alternating(500000)) == BatchResult(Alternating(500000)) == -0.999999
  {
    hide Sum, Squares, Products, Alternating, NeighbourSquares;
    var data := Alternating(500000);
    var x := Reals(data);
    AlternatingSums(500000);
    NeighbourSquaresAre(x);
    FormulasRelate(x);
    AlternatingEnds(500000);
    hide BatchNumerator, BatchDenominator;
    StreamStaysBelowOne(x);
    QuotientBounds(BatchNumerator(x), BatchDenominator(x));
    assert BatchDenominator(x) == 1000000.0 && BatchNumerator(x) == -999999.0;
  }

  lemma AlternatingEnds(pairs: nat)
    requires pairs > 0
    ensures var x := Reals(Alternating(pairs)); x[0] == 0.0 && x[|x| - 1] == 2.0
  {
  }
}
