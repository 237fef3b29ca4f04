/** Exact complex numbers, standing in for numpy's complex128. */
module ComplexNumbers {

  datatype Complex = Complex(re: real, im: real)

  const Zero: Complex := Complex(0.0, 0.0)
  const One: Complex := Complex(1.0, 0.0)

  function FromReal(x: real): Complex {
    Complex(x, 0.0)
  }

  function Add(a: Complex, b: Complex): Complex {
    Complex(a.re + b.re, a.im + b.im)
  }

  function Mul(a: Complex, b: Complex): Complex {
    Complex(a.re * b.re - a.im * b.im, a.re * b.im + a.im * b.re)
  }

  function Conj(a: Complex): Complex {
    Complex(a.re, -a.im)
  }

  /** Multiplication by a real number. */
  function Scale(k: real, a: Complex): Complex {
    Complex(k * a.re, k * a.im)
  }

  /** Division by a non-zero real number. */
  function Divide(a: Complex, k: real): Complex
    requires k != 0.0
  {
    Complex(a.re / k, a.im / k)
  }

  /** |a|², which numpy computes as real(conj(a) * a). */
  function ModulusSquared(a: Complex): (m: real)
    ensures m >= 0.0
  {
    SquareNonNegative(a.re);
    SquareNonNegative(a.im);
    a.re * a.re + a.im * a.im
  }

  lemma SquareNonNegative(x: real)
    ensures x * x >= 0.0
  {
    if x < 0.0 {
      assert x * x == (-x) * (-x);
    }
  }

  lemma ConjMulSelf(a: Complex)
    ensures Mul(Conj(a), a) == FromReal(ModulusSquared(a))
  {
  }

  /** Swapping the factors of conj(a)·b conjugates the product. */
  lemma ConjMulSwap(a: Complex, b: Complex)
    ensures Mul(Conj(b), a) == Conj(Mul(Conj(a), b))
  {
  }

  /** conj(c·a)·(c·b) = |c|²·conj(a)·b */
  lemma ConjMulScaled(c: Complex, a: Complex, b: Complex)
    ensures Mul(Conj(Mul(c, a)), Mul(c, b)) == Scale(ModulusSquared(c), Mul(Conj(a), b))
  {
    var m := ModulusSquared(c);
    calc {
      Mul(Conj(Mul(c, a)), Mul(c, b)).re;
      (c.re * a.re - c.im * a.im) * (c.re * b.re - c.im * b.im)
        + (c.re * a.im + c.im * a.re) * (c.re * b.im + c.im * b.re);
      (c.re * c.re + c.im * c.im) * (a.re * b.re + a.im * b.im);
    }
    calc {
      Mul(Conj(Mul(c, a)), Mul(c, b)).im;
      (c.re * a.re - c.im * a.im) * (c.re * b.im + c.im * b.re)
        - (c.re * a.im + c.im * a.re) * (c.re * b.re - c.im * b.im);
      (c.re * c.re + c.im * c.im) * (a.re * b.im - a.im * b.re);
    }
  }

  /** conj(a/k)·(b/k) = conj(a)·b / k² */
  lemma ConjMulDivided(a: Complex, b: Complex, k: real)
    requires k != 0.0
    ensures Mul(Conj(Divide(a, k)), Divide(b, k)) == Scale(1.0 / (k * k), Mul(Conj(a), b))
  {
    assert (a.re / k) * (b.re / k) == (a.re * b.re) / (k * k);
    assert (a.im / k) * (b.im / k) == (a.im * b.im) / (k * k);
    assert (a.re / k) * (b.im / k) == (a.re * b.im) / (k * k);
    assert (a.im / k) * (b.re / k) == (a.im * b.re) / (k * k);
    var q := 1.0 / (k * k);
    assert (a.re * b.re + a.im * b.im) / (k * k) == q * (a.re * b.re + a.im * b.im);
    assert (a.re * b.im - a.im * b.re) / (k * k) == q * (a.re * b.im - a.im * b.re);
  }

  /** Multiplication by a real distributes over addition. */
  lemma ScaleAdd(k: real, a: Complex, b: Complex)
    ensures Add(Scale(k, a), Scale(k, b)) == Scale(k, Add(a, b))
  {
  }

  /** Two real factors commute. */
  lemma ScaleSwap(k: real, d: real, a: Complex)
    ensures Scale(d, Scale(k, a)) == Scale(k, Scale(d, a))
  {
  }

  /** A real factor passes through division by a real. */
  lemma DivideScale(k: real, a: Complex, m: real)
    requires m != 0.0
    ensures Divide(Scale(k, a), m) == Scale(k, Divide(a, m))
  {
  }

  /** Conjugation commutes with real scaling and real division. */
  lemma ConjScaleDivide(d: real, a: Complex, m: real)
    requires m != 0.0
    ensures Conj(Scale(d, Divide(a, m))) == Scale(d, Divide(Conj(a), m))
  {
    assert -(d * (a.im / m)) == d * ((-a.im) / m);
  }
}
