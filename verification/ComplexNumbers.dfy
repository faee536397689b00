/** Exact complex arithmetic: a pair of reals, as the two sample arrays of the transform hold it. */
module ComplexNumbers {

  datatype Complex = Complex(re: real, im: real)

  const ZERO := Complex(0.0, 0.0)
  const ONE := Complex(1.0, 0.0)

  function Add(a: Complex, b: Complex): Complex {
    Complex(a.re + b.re, a.im + b.im)
  }

  function Sub(a: Complex, b: Complex): Complex {
    Complex(a.re - b.re, a.im - b.im)
  }

  function Neg(a: Complex): Complex {
    Complex(-a.re, -a.im)
  }

  function Mul(a: Complex, b: Complex): Complex {
    Complex(a.re * b.re - a.im * b.im, a.re * b.im + a.im * b.re)
  }

  lemma MulCommutes(a: Complex, b: Complex)
    ensures Mul(a, b) == Mul(b, a)
  {
  }

  lemma MulAssociates(a: Complex, b: Complex, c: Complex)
    ensures Mul(Mul(a, b), c) == Mul(a, Mul(b, c))
  {
    var l, r := Mul(Mul(a, b), c), Mul(a, Mul(b, c));
    assert l.re == r.re;
    assert l.im == r.im;
  }

  lemma MulDistributes(a: Complex, b: Complex, c: Complex)
    ensures Mul(a, Add(b, c)) == Add(Mul(a, b), Mul(a, c))
  {
    var l, r := Mul(a, Add(b, c)), Add(Mul(a, b), Mul(a, c));
    assert l.re == r.re;
    assert l.im == r.im;
  }

  lemma MulByNegated(a: Complex, b: Complex)
    ensures Mul(Neg(a), b) == Neg(Mul(a, b)) == Mul(a, Neg(b))
  {
  }

  lemma AddNegated(a: Complex, b: Complex, c: Complex)
    ensures Add(a, Mul(Neg(b), c)) == Sub(a, Mul(b, c))
  {
    MulByNegated(b, c);
  }

  /** One even and one odd term join their own partial sums. */
  lemma InterleavedSum(even: Complex, odd: Complex, a: Complex, b: Complex, c: Complex, w: Complex)
    ensures Add(Add(Add(even, Mul(w, odd)), Mul(a, c)), Mul(b, Mul(c, w)))
         == Add(Add(even, Mul(a, c)), Mul(w, Add(odd, Mul(b, c))))
  {
    MulAssociates(b, c, w);
    MulCommutes(Mul(b, c), w);
    MulDistributes(w, odd, Mul(b, c));
  }

  lemma NothingTurned(w: Complex)
    ensures Add(ZERO, Mul(w, ZERO)) == ZERO
  {
  }
}
