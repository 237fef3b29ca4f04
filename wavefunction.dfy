/**
 * QSim/Wavefunction.py: the state of a wavefunction held against a basis.
 *
 * A DiscreteState holds one amplitude per label and takes inner products as
 * the conjugate dot product; a ContinuousState holds one amplitude per point
 * of a one-axis grid and takes inner products with the trapezoid rule over
 * the grid. Both normalise by dividing by the square root of the self inner
 * product; that root is passed in as `root`, with root > 0 and
 * root · root equal to the self inner product.
 */
module Wavefunction {
  import opened Results
  import opened ComplexNumbers
  import Math

  // ---------------------------------------------------------------------
  // Element-wise arrays
  // ---------------------------------------------------------------------

  /** np.conjugate(a) * b, element by element. */
  function ConjMul(a: seq<Complex>, b: seq<Complex>): (r: seq<Complex>)
    requires |a| == |b|
    ensures |r| == |a|
  {
    seq(|a|, i requires 0 <= i < |a| => Mul(Conj(a[i]), b[i]))
  }

  /** np.conjugate(a). */
  function ConjAll(a: seq<Complex>): (r: seq<Complex>)
    ensures |r| == |a|
  {
    seq(|a|, i requires 0 <= i < |a| => Conj(a[i]))
  }

  /** a * k for a real k. */
  function ScaleAll(k: real, a: seq<Complex>): (r: seq<Complex>)
    ensures |r| == |a|
  {
    seq(|a|, i requires 0 <= i < |a| => Scale(k, a[i]))
  }

  /** a * c for a complex scalar c. */
  function MulAll(c: Complex, a: seq<Complex>): (r: seq<Complex>)
    ensures |r| == |a|
  {
    seq(|a|, i requires 0 <= i < |a| => Mul(a[i], c))
  }

  /** a / k for a non-zero real k. */
  function DivideAll(a: seq<Complex>, k: real): (r: seq<Complex>)
    requires k != 0.0
    ensures |r| == |a|
  {
    seq(|a|, i requires 0 <= i < |a| => Divide(a[i], k))
  }

  /** a + b for arrays of the same length. */
  function AddAll(a: seq<Complex>, b: seq<Complex>): (r: seq<Complex>)
    requires |a| == |b|
    ensures |r| == |a|
  {
    seq(|a|, i requires 0 <= i < |a| => Add(a[i], b[i]))
  }

  /** np.ones(n). */
  function Ones(n: nat): (r: seq<Complex>)
    ensures |r| == n
  {
    seq(n, _ => One)
  }

  /** np.real(a) and np.imag(a). */
  function RealParts(a: seq<Complex>): (r: seq<real>)
    ensures |r| == |a|
  {
    seq(|a|, i requires 0 <= i < |a| => a[i].re)
  }

  function ImagParts(a: seq<Complex>): (r: seq<real>)
    ensures |r| == |a|
  {
    seq(|a|, i requires 0 <= i < |a| => a[i].im)
  }

  /** Every element is a non-negative real number. */
  ghost predicate RealNonNegative(a: seq<Complex>) {
    forall i :: 0 <= i < |a| ==> a[i].im == 0.0 && a[i].re >= 0.0
  }

  /** A grid whose points never decrease. */
  ghost predicate Nondecreasing(x: seq<real>) {
    forall i :: 0 <= i < |x| - 1 ==> x[i] <= x[i + 1]
  }

  /** The distance from the first grid point to the last (0 for fewer than two points). */
  function Span(x: seq<real>): real {
    if |x| == 0 then 0.0 else x[|x| - 1] - x[0]
  }

  // ---------------------------------------------------------------------
  // Sums and the trapezoid rule
  // ---------------------------------------------------------------------

  /** np.sum of a one-axis complex array. */
  function Sum(s: seq<Complex>): Complex
    decreases |s|
  {
    if |s| == 0 then Zero else Add(Sum(s[..|s| - 1]), s[|s| - 1])
  }

  /**
   * The module-level integrateArray(array, basis) on one axis: the sum of
   * (f[i+1] + f[i]) / 2 · (x[i+1] - x[i]) over consecutive grid points.
   */
  function Trapezoid(f: seq<Complex>, x: seq<real>): Complex
    requires |f| == |x|
    decreases |f|
  {
    if |f| <= 1 then Zero
    else
      var n := |f|;
      Add(Trapezoid(f[..n - 1], x[..n - 1]), Panel(f[n - 2], f[n - 1], x[n - 2], x[n - 1]))
  }

  /** One panel of the trapezoid rule: the mean of two samples times the step between them. */
  function Panel(lo: Complex, hi: Complex, xlo: real, xhi: real): Complex
  {
    Scale(xhi - xlo, Divide(Add(hi, lo), 2.0))
  }

  /** Summing conjugates gives the conjugate of the sum. */
  lemma {:induction false} SumConj(s: seq<Complex>)
    ensures Sum(ConjAll(s)) == Conj(Sum(s))
    decreases |s|
  {
    if |s| > 0 {
      var n := |s|;
      assert ConjAll(s)[..n - 1] == ConjAll(s[..n - 1]);
      SumConj(s[..n - 1]);
    }
  }

  /** A real factor comes out of a sum. */
  lemma {:induction false} SumScale(k: real, s: seq<Complex>)
    ensures Sum(ScaleAll(k, s)) == Scale(k, Sum(s))
    decreases |s|
  {
    if |s| > 0 {
      var n := |s|;
      assert ScaleAll(k, s)[..n - 1] == ScaleAll(k, s[..n - 1]);
      SumScale(k, s[..n - 1]);
      ScaleAdd(k, Sum(s[..n - 1]), s[n - 1]);
    }
  }

  /** A sum of non-negative reals is a non-negative real. */
  lemma {:induction false} SumRealNonNegative(s: seq<Complex>)
    requires RealNonNegative(s)
    ensures Sum(s).im == 0.0 && Sum(s).re >= 0.0
    decreases |s|
  {
    if |s| > 0 {
      SumRealNonNegative(s[..|s| - 1]);
    }
  }

  /** n ones sum to n. */
  lemma {:induction false} SumOnes(n: nat)
    ensures Sum(Ones(n)) == FromReal(n as real)
  {
    if n > 0 {
      assert Ones(n)[..n - 1] == Ones(n - 1);
      SumOnes(n - 1);
    }
  }

  /** The panel of two conjugated samples is the conjugate of the panel. */
  lemma PanelConj(lo: Complex, hi: Complex, clo: Complex, chi: Complex, xlo: real, xhi: real)
    requires clo == Conj(lo) && chi == Conj(hi)
    ensures Panel(clo, chi, xlo, xhi) == Conj(Panel(lo, hi, xlo, xhi))
  {
    ConjScaleDivide(xhi - xlo, Add(hi, lo), 2.0);
  }

  /** Conjugation distributes over one step of a running sum. */
  lemma ConjChain(t: Complex, tg: Complex, front: Complex, panel: Complex, cfront: Complex, cpanel: Complex)
    requires t == Add(front, panel) && tg == Add(cfront, cpanel)
    requires cfront == Conj(front) && cpanel == Conj(panel)
    ensures tg == Conj(t)
  {
  }

  /** The trapezoid rule of the conjugates is the conjugate of the trapezoid rule. */
  lemma {:induction false} TrapezoidConj(f: seq<Complex>, x: seq<real>)
    requires |f| == |x|
    ensures Trapezoid(ConjAll(f), x) == Conj(Trapezoid(f, x))
    decreases |f|
  {
    if |f| > 1 {
      var n := |f|;
      var g := ConjAll(f);
      PanelConj(f[n - 2], f[n - 1], g[n - 2], g[n - 1], x[n - 2], x[n - 1]);
      assert g[..n - 1] == ConjAll(f[..n - 1]);
      TrapezoidConj(f[..n - 1], x[..n - 1]);
      ConjChain(Trapezoid(f, x), Trapezoid(g, x),
        Trapezoid(f[..n - 1], x[..n - 1]), Panel(f[n - 2], f[n - 1], x[n - 2], x[n - 1]),
        Trapezoid(g[..n - 1], x[..n - 1]), Panel(g[n - 2], g[n - 1], x[n - 2], x[n - 1]));
    }
  }

  /** A real factor comes out of the trapezoid rule. */
  lemma {:induction false} TrapezoidScale(k: real, f: seq<Complex>, x: seq<real>)
    requires |f| == |x|
    ensures Trapezoid(ScaleAll(k, f), x) == Scale(k, Trapezoid(f, x))
    decreases |f|
  {
    if |f| > 1 {
      var n := |f|;
      var g := ScaleAll(k, f);
      var d := x[n - 1] - x[n - 2];
      assert g[..n - 1] == ScaleAll(k, f[..n - 1]);
      TrapezoidScale(k, f[..n - 1], x[..n - 1]);
      ScaleAdd(k, f[n - 1], f[n - 2]);
      DivideScale(k, Add(f[n - 1], f[n - 2]), 2.0);
      ScaleSwap(k, d, Divide(Add(f[n - 1], f[n - 2]), 2.0));
      ScaleAdd(k, Trapezoid(f[..n - 1], x[..n - 1]), Scale(d, Divide(Add(f[n - 1], f[n - 2]), 2.0)));
    }
  }

  /** On a non-decreasing grid, the trapezoid rule of non-negative reals is a non-negative real. */
  lemma {:induction false} TrapezoidRealNonNegative(f: seq<Complex>, x: seq<real>)
    requires |f| == |x| && RealNonNegative(f) && Nondecreasing(x)
    ensures Trapezoid(f, x).im == 0.0 && Trapezoid(f, x).re >= 0.0
    decreases |f|
  {
    if |f| > 1 {
      var n := |f|;
      assert f[n - 2].im == 0.0 && f[n - 2].re >= 0.0 && f[n - 1].im == 0.0 && f[n - 1].re >= 0.0;
      assert x[n - 2] <= x[n - 1];
      PanelRealNonNegative(f[n - 2], f[n - 1], x[n - 2], x[n - 1]);
      TrapezoidRealNonNegative(f[..n - 1], x[..n - 1]);
    }
  }

  /** A panel between two non-negative real samples on an increasing step is a non-negative real. */
  lemma PanelRealNonNegative(lo: Complex, hi: Complex, xlo: real, xhi: real)
    requires lo.im == 0.0 && hi.im == 0.0 && lo.re >= 0.0 && hi.re >= 0.0 && xlo <= xhi
    ensures Panel(lo, hi, xlo, xhi).im == 0.0 && Panel(lo, hi, xlo, xhi).re >= 0.0
  {
    ProductNonNegative(xhi - xlo, (hi.re + lo.re) / 2.0);
  }

  lemma ProductNonNegative(p: real, q: real)
    requires p >= 0.0 && q >= 0.0
    ensures p * q >= 0.0
  {
  }

  /** The trapezoid rule of the constant 1 is the span of the grid. */
  lemma {:induction false} TrapezoidOnes(x: seq<real>)
    ensures Trapezoid(Ones(|x|), x) == FromReal(Span(x))
    decreases |x|
  {
    var n := |x|;
    if n > 1 {
      var ones := Ones(n);
      assert ones[n - 2] == One && ones[n - 1] == One;
      PanelOnes(ones[n - 2], ones[n - 1], x[n - 2], x[n - 1]);
      assert ones[..n - 1] == Ones(n - 1);
      TrapezoidOnes(x[..n - 1]);
    }
  }

  /** A panel between two samples of 1 is the width of the step. */
  lemma PanelOnes(lo: Complex, hi: Complex, xlo: real, xhi: real)
    requires lo == One && hi == One
    ensures Panel(lo, hi, xlo, xhi) == FromReal(xhi - xlo)
  {
  }

  /**
   * On an evenly spaced grid (step δ), the trapezoid rule is the one of
   * QSim/Math.py's integrateArray with delta δ, on the real and imaginary
   * parts separately.
   */
  lemma {:induction false} TrapezoidUniform(f: seq<Complex>, x: seq<real>, delta: real)
    requires |f| == |x|
    requires forall i :: 0 <= i < |x| - 1 ==> x[i + 1] - x[i] == delta
    ensures Trapezoid(f, x) == Complex(Math.TrapezoidSum(RealParts(f), delta), Math.TrapezoidSum(ImagParts(f), delta))
    decreases |f|
  {
    var n := |f|;
    if n > 1 {
      var re, im := RealParts(f), ImagParts(f);
      var pr, pi := (re[n - 1] + re[n - 2]) / 2.0 * delta, (im[n - 1] + im[n - 2]) / 2.0 * delta;
      assert x[n - 1] - x[n - 2] == delta;
      PanelUniform(f[n - 2], f[n - 1], x[n - 2], x[n - 1], delta, pr, pi);
      assert re[..n - 1] == RealParts(f[..n - 1]);
      assert im[..n - 1] == ImagParts(f[..n - 1]);
      TrapezoidUniform(f[..n - 1], x[..n - 1], delta);
    }
  }

  /** On a step of δ, one panel has the real and imaginary parts the real trapezoid rule adds. */
  lemma PanelUniform(lo: Complex, hi: Complex, xlo: real, xhi: real, delta: real, pr: real, pi: real)
    requires xhi - xlo == delta
    requires pr == (hi.re + lo.re) / 2.0 * delta && pi == (hi.im + lo.im) / 2.0 * delta
    ensures Panel(lo, hi, xlo, xhi) == Complex(pr, pi)
  {
  }

  // ---------------------------------------------------------------------
  // Bases and inner products
  // ---------------------------------------------------------------------

  /**
   * The basis of a state: the grid of a one-axis ContinuousState (the single
   * array np.meshgrid returns for one axis) or the labels of a DiscreteState.
   */
  datatype Basis = ContinuousBasis(axis: seq<real>) | DiscreteBasis(labels: seq<string>)

  /** The length a state array must have to match the basis (`_checkAgainstBasis`). */
  function BasisLength(b: Basis): nat {
    match b
    case ContinuousBasis(axis) => |axis|
    case DiscreteBasis(labels) => |labels|
  }

  /** `dims`: the length of `_basis`, which is the list of grids of a continuous state and the label array of a discrete one. */
  function Dims(b: Basis): (d: nat)
    ensures b.ContinuousBasis? ==> d == 1
    ensures b.DiscreteBasis? ==> d == BasisLength(b)
  {
    match b
    case ContinuousBasis(_) => 1
    case DiscreteBasis(labels) => |labels|
  }

  /**
   * ⟨a|c⟩ against a basis: the trapezoid rule of conj(a)·c over the grid
   * (ContinuousState.innerProduct) or the sum of conj(a)·c
   * (DiscreteState.innerProduct).
   */
  function Inner(b: Basis, a: seq<Complex>, c: seq<Complex>): Complex
    requires |a| == |c| && (b.ContinuousBasis? ==> |a| == |b.axis|)
  {
    match b
    case ContinuousBasis(axis) => Trapezoid(ConjMul(a, c), axis)
    case DiscreteBasis(_) => Sum(ConjMul(a, c))
  }

  /** Swapping the arguments of the inner product conjugates it. */
  lemma InnerSwap(b: Basis, a: seq<Complex>, c: seq<Complex>)
    requires |a| == |c| && (b.ContinuousBasis? ==> |a| == |b.axis|)
    ensures Inner(b, c, a) == Conj(Inner(b, a, c))
  {
    var p := ConjMul(a, c);
    forall i | 0 <= i < |a|
      ensures ConjMul(c, a)[i] == ConjAll(p)[i]
    {
      ConjMulSwap(a[i], c[i]);
    }
    assert ConjMul(c, a) == ConjAll(p);
    match b
    case ContinuousBasis(axis) => TrapezoidConj(p, axis);
    case DiscreteBasis(_) => SumConj(p);
  }

  /** conj(a)·a is |a|² element by element. */
  lemma ConjMulSelfRealNonNegative(a: seq<Complex>)
    ensures RealNonNegative(ConjMul(a, a))
  {
    forall i | 0 <= i < |a|
      ensures ConjMul(a, a)[i].im == 0.0 && ConjMul(a, a)[i].re >= 0.0
    {
      ConjMulSelf(a[i]);
    }
  }

  /**
   * ⟨a|a⟩ is real; it is non-negative for a discrete basis and for a
   * continuous basis whose grid does not decrease.
   */
  lemma InnerSelfReal(b: Basis, a: seq<Complex>)
    requires b.ContinuousBasis? ==> |a| == |b.axis|
    ensures Inner(b, a, a).im == 0.0
    ensures b.DiscreteBasis? || Nondecreasing(b.axis) ==> Inner(b, a, a).re >= 0.0
  {
    var p := ConjMul(a, a);
    ConjMulSelfRealNonNegative(a);
    match b
    case DiscreteBasis(_) =>
      SumRealNonNegative(p);
    case ContinuousBasis(axis) =>
      TrapezoidRealOf(p, axis);
      if Nondecreasing(axis) {
        TrapezoidRealNonNegative(p, axis);
      }
  }

  /** The trapezoid rule of real values is real, on any grid. */
  lemma {:induction false} TrapezoidRealOf(f: seq<Complex>, x: seq<real>)
    requires |f| == |x| && forall i :: 0 <= i < |f| ==> f[i].im == 0.0
    ensures Trapezoid(f, x).im == 0.0
    decreases |f|
  {
    if |f| > 1 {
      TrapezoidRealOf(f[..|f| - 1], x[..|x| - 1]);
    }
  }

  /** Dividing both arguments by k divides the inner product by k². */
  lemma InnerDivided(b: Basis, a: seq<Complex>, c: seq<Complex>, k: real)
    requires k != 0.0
    requires |a| == |c| && (b.ContinuousBasis? ==> |a| == |b.axis|)
    ensures Inner(b, DivideAll(a, k), DivideAll(c, k)) == Scale(1.0 / (k * k), Inner(b, a, c))
  {
    var p := ConjMul(a, c);
    forall i | 0 <= i < |a|
      ensures ConjMul(DivideAll(a, k), DivideAll(c, k))[i] == ScaleAll(1.0 / (k * k), p)[i]
    {
      ConjMulDivided(a[i], c[i], k);
    }
    assert ConjMul(DivideAll(a, k), DivideAll(c, k)) == ScaleAll(1.0 / (k * k), p);
    match b
    case ContinuousBasis(axis) => TrapezoidScale(1.0 / (k * k), p, axis);
    case DiscreteBasis(_) => SumScale(1.0 / (k * k), p);
  }

  /** Multiplying both arguments by the number c multiplies the inner product by |c|². */
  lemma InnerMultiplied(b: Basis, a: seq<Complex>, d: seq<Complex>, c: Complex)
    requires |a| == |d| && (b.ContinuousBasis? ==> |a| == |b.axis|)
    ensures Inner(b, MulAll(c, a), MulAll(c, d)) == Scale(ModulusSquared(c), Inner(b, a, d))
  {
    var p := ConjMul(a, d);
    var m := ModulusSquared(c);
    forall i | 0 <= i < |a|
      ensures ConjMul(MulAll(c, a), MulAll(c, d))[i] == ScaleAll(m, p)[i]
    {
      assert Mul(a[i], c) == Mul(c, a[i]) && Mul(d[i], c) == Mul(c, d[i]);
      ConjMulScaled(c, a[i], d[i]);
    }
    assert ConjMul(MulAll(c, a), MulAll(c, d)) == ScaleAll(m, p);
    match b
    case ContinuousBasis(axis) => TrapezoidScale(m, p, axis);
    case DiscreteBasis(_) => SumScale(m, p);
  }

  /** normalize: dividing by the square root of ⟨a|a⟩ leaves a state whose self inner product is 1. */
  lemma NormalizedIsUnit(b: Basis, a: seq<Complex>, root: real)
    requires b.ContinuousBasis? ==> |a| == |b.axis|
    requires root > 0.0 && root * root == Inner(b, a, a).re
    ensures Inner(b, DivideAll(a, root), DivideAll(a, root)) == One
  {
    var z := Inner(b, a, a);
    InnerSelfReal(b, a);
    UnitQuotient(root, z);
    InnerDivided(b, a, a, root);
  }

  /** A real z divided by the square of its own square root is one. */
  lemma UnitQuotient(r: real, z: Complex)
    requires r > 0.0 && z.re == r * r && z.im == 0.0
    ensures Scale(1.0 / (r * r), z) == One
  {
    var d := r * r;
    assert d > 0.0;
    assert (1.0 / d) * d == 1.0;
  }

  /**
   * The freshly built states: n ones against n labels have self inner
   * product n; ones on a grid have the grid's span.
   */
  lemma InnerOnes(b: Basis)
    ensures Inner(b, Ones(BasisLength(b)), Ones(BasisLength(b)))
         == (if b.DiscreteBasis? then FromReal(|b.labels| as real) else FromReal(Span(b.axis)))
  {
    var n := BasisLength(b);
    assert ConjMul(Ones(n), Ones(n)) == Ones(n);
    match b
    case ContinuousBasis(axis) => TrapezoidOnes(axis);
    case DiscreteBasis(labels) => SumOnes(n);
  }

  // ---------------------------------------------------------------------
  // The module-level nquad
  // ---------------------------------------------------------------------

  /** The array nquad works on: one axis of samples, or the 0-axis value left after integrating it. */
  datatype Integrand = Samples(values: seq<Complex>) | Scalar(value: Complex)

  /**
   * integrateArray(array, basis): a one-axis array against a grid of the same
   * length gives its trapezoid integral; a 0-axis array cannot be sliced
   * (IndexError); lengths that differ do not broadcast (ValueError).
   */
  function IntegrateArray(a: Integrand, basis: seq<real>): (r: Result<Integrand>)
    ensures r.Success? ==> r.value.Scalar?
    ensures a.Scalar? ==> r == Failure(IndexError)
  {
    match a
    case Scalar(_) => Failure(IndexError)
    case Samples(values) =>
      if |values| != |basis| then Failure(ValueError) else Success(Scalar(Trapezoid(values, basis)))
  }

  /** nquad(psi, bases) as a value: integrateArray once per basis, in order. */
  function NQuadSpec(a: Integrand, bases: seq<seq<real>>): Result<Integrand>
    decreases |bases|
  {
    if |bases| == 0 then Success(a)
    else match IntegrateArray(a, bases[0])
      case Failure(e) => Failure(e)
      case Success(b) => NQuadSpec(b, bases[1..])
  }

  /** nquad: a copy of psi is integrated once per basis. */
  method NQuad(psi: Integrand, bases: seq<seq<real>>) returns (r: Result<Integrand>)
    ensures r == NQuadSpec(psi, bases)
  {
    var result := psi;
    for t := 0 to |bases|
      invariant NQuadSpec(psi, bases) == NQuadSpec(result, bases[t..])
    {
      assert bases[t..][1..] == bases[t + 1..];
      var step := IntegrateArray(result, bases[t]);
      if step.Failure? {
        return Failure(step.error);
      }
      result := step.value;
    }
    return Success(result);
  }

  /**
   * With the single grid of a one-axis ContinuousState, nquad is the
   * trapezoid rule; a second grid always raises IndexError, because the
   * first integration leaves a 0-axis array.
   */
  lemma NQuadOneAxis(f: seq<Complex>, x: seq<real>, more: seq<seq<real>>)
    requires |f| == |x|
    ensures NQuadSpec(Samples(f), [x]) == Success(Scalar(Trapezoid(f, x)))
    ensures |more| > 0 ==> NQuadSpec(Samples(f), [x] + more) == Failure(IndexError)
  {
    assert [x][1..] == [];
    if |more| > 0 {
      assert ([x] + more)[1..] == more;
      assert NQuadSpec(Samples(f), [x] + more) == NQuadSpec(Scalar(Trapezoid(f, x)), more);
    }
  }

  // ---------------------------------------------------------------------
  // Matrices
  // ---------------------------------------------------------------------

  /** A two-axis numpy array: `rows` rows of `cols` entries each. */
  datatype Matrix = Matrix(cols: nat, rows: seq<seq<Complex>>)

  ghost predicate WellShapedMatrix(m: Matrix) {
    forall i :: 0 <= i < |m.rows| ==> |m.rows[i]| == m.cols
  }

  /** Σ_j row[j]·v[j]. */
  function Dot(row: seq<Complex>, v: seq<Complex>): Complex
    requires |row| == |v|
  {
    Sum(seq(|v|, j requires 0 <= j < |v| => Mul(row[j], v[j])))
  }

  /** m @ v. */
  function MatVec(m: Matrix, v: seq<Complex>): (r: seq<Complex>)
    requires WellShapedMatrix(m) && m.cols == |v|
    ensures |r| == |m.rows|
  {
    seq(|m.rows|, i requires 0 <= i < |m.rows| => Dot(m.rows[i], v))
  }

  /** The n × n identity matrix. */
  function Identity(n: nat): (m: Matrix)
    ensures WellShapedMatrix(m) && m.cols == n && |m.rows| == n
  {
    Matrix(n, seq(n, i => seq(n, j => if i == j then One else Zero)))
  }

  /** A sum in which only entry i is non-zero is that entry. */
  lemma {:induction false} SumOneHot(s: seq<Complex>, i: nat)
    requires i < |s| && forall j :: 0 <= j < |s| && j != i ==> s[j] == Zero
    ensures Sum(s) == s[i]
    decreases |s|
  {
    var n := |s|;
    if i < n - 1 {
      SumOneHot(s[..n - 1], i);
    } else {
      SumZero(s[..n - 1]);
    }
  }

  /** A sum of zeros is zero. */
  lemma {:induction false} SumZero(s: seq<Complex>)
    requires forall j :: 0 <= j < |s| ==> s[j] == Zero
    ensures Sum(s) == Zero
    decreases |s|
  {
    if |s| > 0 {
      SumZero(s[..|s| - 1]);
    }
  }

  /** The identity matrix maps every vector to itself. */
  lemma MatVecIdentity(v: seq<Complex>)
    ensures MatVec(Identity(|v|), v) == v
  {
    var n := |v|;
    var m := Identity(n);
    forall i | 0 <= i < n
      ensures MatVec(m, v)[i] == v[i]
    {
      var terms := seq(n, j requires 0 <= j < n => Mul(m.rows[i][j], v[j]));
      assert terms[i] == v[i];
      SumOneHot(terms, i);
    }
  }

  // ---------------------------------------------------------------------
  // States
  // ---------------------------------------------------------------------

  /** The right-hand operand of `state * other`. */
  datatype Operand = Number(c: Complex) | StateOperand(state: State) | OtherOperand

  /** What `*` returns: a new scaled state, or an inner product. */
  datatype Product = ScaledState(state: State) | InnerValue(value: Complex)

  /**
   * The right-hand operand of `state + other`: a state, a bare array, or a
   * bare number, which numpy adds to every amplitude.
   */
  datatype Addend = StateAddend(state: State) | ArrayAddend(values: seq<Complex>) | NumberAddend(c: Complex)

  /**
   * AbstractState with its two subclasses: the basis is fixed at
   * construction, and `amplitudes` is the `_state` array, which the methods
   * replace as a whole.
   */
  class State {
    const basis: Basis
    var amplitudes: seq<Complex>

    /**
     * A continuous state holds one amplitude per grid point: its constructor
     * and setState ensure it, and nothing else replaces its array. (A
     * discrete state can lose the match through `@` with a non-square matrix.)
     */
    predicate Valid()
      reads this
    {
      basis.ContinuousBasis? ==> |amplitudes| == |basis.axis|
    }

    /** DiscreteState(labels): one unnormalised 1 per label. */
    constructor Discrete(labels: seq<string>)
      ensures basis == DiscreteBasis(labels) && amplitudes == Ones(|labels|)
      ensures Valid()
    {
      basis := DiscreteBasis(labels);
      amplitudes := Ones(|labels|);
    }

    /** ContinuousState(axis): ones on the grid, normalised; `root` is the square root of the grid's span. */
    constructor Continuous(axis: seq<real>, root: real)
      requires root > 0.0 && root * root == Span(axis)
      ensures basis == ContinuousBasis(axis) && amplitudes == DivideAll(Ones(|axis|), root)
      ensures Valid() && Inner(basis, amplitudes, amplitudes) == One
    {
      basis := ContinuousBasis(axis);
      amplitudes := Ones(|axis|);
      new;
      InnerOnes(basis);
      assert Inner(basis, amplitudes, amplitudes).re == Span(axis);
      Normalize(root);
    }

    /** A new state on the given basis, standing for the copy that copy, `*`, `+` and `@` build before overwriting its array. */
    constructor Copied(b: Basis, a: seq<Complex>)
      ensures basis == b && amplitudes == a
    {
      basis := b;
      amplitudes := a;
    }

    /**
     * innerProduct: TypeError between a continuous and a discrete state;
     * arrays of different lengths do not broadcast (ValueError); otherwise
     * ⟨this|other⟩ against this state's basis.
     */
    function InnerProduct(other: State): (r: Result<Complex>)
      reads this, other
      ensures r == Failure(TypeError) <==> basis.ContinuousBasis? != other.basis.ContinuousBasis?
      ensures r.Success? ==> |amplitudes| == |other.amplitudes|
      ensures other == this && Valid() ==> r.Success? && r.value.im == 0.0
      ensures other == this && basis.DiscreteBasis? ==> r.Success? && r.value.re >= 0.0
    {
      if basis.ContinuousBasis? != other.basis.ContinuousBasis? then Failure(TypeError)
      else if |amplitudes| != |other.amplitudes| || (basis.ContinuousBasis? && |amplitudes| != |basis.axis|) then
        Failure(ValueError)
      else
        InnerSelfReal(basis, amplitudes);
        Success(Inner(basis, amplitudes, other.amplitudes))
    }

    /** normalize: divide the array by the square root of ⟨ψ|ψ⟩, after which ⟨ψ|ψ⟩ = 1. */
    method Normalize(root: real)
      requires Valid()
      requires root > 0.0 && root * root == Inner(basis, amplitudes, amplitudes).re
      modifies this
      ensures amplitudes == DivideAll(old(amplitudes), root)
      ensures Valid() && Inner(basis, amplitudes, amplitudes) == One
    {
      NormalizedIsUnit(basis, amplitudes, root);
      amplitudes := DivideAll(amplitudes, root);
    }

    /**
     * setState: an array whose length differs from the basis raises
     * ValueError and leaves the state as it was; otherwise the array is
     * stored, then normalised when asked.
     */
    method SetState(psi: seq<Complex>, normalize: bool := true, root: real) returns (r: Outcome)
      requires normalize && |psi| == BasisLength(basis) ==> root > 0.0 && root * root == Inner(basis, psi, psi).re
      modifies this
      ensures |psi| != BasisLength(basis) ==> r == Fail(ValueError) && amplitudes == old(amplitudes)
      ensures |psi| == BasisLength(basis) ==> r == Pass && Valid()
      ensures |psi| == BasisLength(basis) && !normalize ==> amplitudes == psi
      ensures |psi| == BasisLength(basis) && normalize ==>
        amplitudes == DivideAll(psi, root) && Inner(basis, amplitudes, amplitudes) == One
    {
      if |psi| != BasisLength(basis) {
        return Fail(ValueError);
      }
      amplitudes := psi;
      if normalize {
        Normalize(root);
      }
      return Pass;
    }

    /**
     * copy: a new state on the same basis holding this state's array
     * normalised (copy goes through setState's default normalisation). A
     * discrete state whose array no longer matches its labels fails
     * setState's check.
     */
    method Copy(root: real) returns (r: Result<State>)
      requires |amplitudes| == BasisLength(basis) ==> root > 0.0 && root * root == Inner(basis, amplitudes, amplitudes).re
      ensures |amplitudes| != BasisLength(basis) ==> r == Failure(ValueError)
      ensures |amplitudes| == BasisLength(basis) ==>
        r.Success? && fresh(r.value) && r.value.basis == basis && r.value.Valid() &&
        r.value.amplitudes == DivideAll(amplitudes, root) &&
        Inner(basis, r.value.amplitudes, r.value.amplitudes) == One
    {
      var c := new State.Copied(basis, Ones(BasisLength(basis)));
      var o := c.SetState(amplitudes, true, root);
      if o.Fail? {
        return Failure(o.error);
      }
      return Success(c);
    }

    /**
     * `*` (and `__rmul__`, which defers to it): a number scales a normalised
     * copy; anything else is passed to innerProduct, which accepts only a
     * state of the same kind.
     */
    method Times(other: Operand, root: real) returns (r: Result<Product>)
      requires other.Number? && |amplitudes| == BasisLength(basis) ==>
        root > 0.0 && root * root == Inner(basis, amplitudes, amplitudes).re
      ensures other.Number? && |amplitudes| != BasisLength(basis) ==> r == Failure(ValueError)
      ensures other.Number? && |amplitudes| == BasisLength(basis) ==>
        r.Success? && r.value.ScaledState? && fresh(r.value.state) &&
        r.value.state.basis == basis &&
        r.value.state.amplitudes == MulAll(other.c, DivideAll(amplitudes, root)) &&
        Inner(basis, r.value.state.amplitudes, r.value.state.amplitudes) == FromReal(ModulusSquared(other.c))
      ensures other.StateOperand? ==>
        match InnerProduct(other.state)
        case Failure(e) => r == Failure(e)
        case Success(v) => r == Success(InnerValue(v))
      ensures other.OtherOperand? ==> r == Failure(TypeError)
    {
      match other
      case Number(c) =>
        var copy := Copy(root);
        if copy.Failure? {
          return Failure(copy.error);
        }
        var s := copy.value;
        s.amplitudes := MulAll(c, s.amplitudes);
        NormalizedIsUnit(basis, amplitudes, root);
        InnerMultiplied(basis, DivideAll(amplitudes, root), DivideAll(amplitudes, root), c);
        return Success(ScaledState(s));
      case StateOperand(state) =>
        var v := InnerProduct(state);
        if v.Failure? {
          return Failure(v.error);
        }
        return Success(InnerValue(v.value));
      case OtherOperand =>
        return Failure(TypeError);
    }

    /**
     * The array that `+` adds to this state's own: the other state's array, the
     * bare array as given, or the number repeated once per amplitude.
     */
    function AddendArray(other: Addend): (o: seq<Complex>)
      reads this, if other.StateAddend? then {other.state} else {}
      ensures other.StateAddend? ==> o == other.state.amplitudes
      ensures other.ArrayAddend? ==> o == other.values
      ensures other.NumberAddend? ==> |o| == |amplitudes| && forall i :: 0 <= i < |o| ==> o[i] == other.c
    {
      match other
      case StateAddend(st) => st.amplitudes
      case ArrayAddend(v) => v
      case NumberAddend(c) => seq(|amplitudes|, _ => c)
    }

    /**
     * `+`: the sum of this state's own (unnormalised) array and the other
     * array, stored in a new state through setState, so normalised; `root`
     * is the square root of the sum's self inner product. Both operands are
     * left as they were. The copy made first fails as copy does; arrays of
     * different lengths do not broadcast, while a number is added to every
     * amplitude.
     */
    method Plus(other: Addend, root: real) returns (r: Result<State>)
      requires
        var o := AddendArray(other);
        |amplitudes| == BasisLength(basis) && |o| == |amplitudes| ==>
          root > 0.0 && root * root == Inner(basis, AddAll(amplitudes, o), AddAll(amplitudes, o)).re
      ensures
        var o := AddendArray(other);
        (|amplitudes| != BasisLength(basis) || |o| != |amplitudes| ==> r == Failure(ValueError)) &&
        (|amplitudes| == BasisLength(basis) && |o| == |amplitudes| ==>
          r.Success? && fresh(r.value) && r.value.basis == basis && r.value.Valid() &&
          r.value.amplitudes == DivideAll(AddAll(amplitudes, o), root) &&
          Inner(basis, r.value.amplitudes, r.value.amplitudes) == One)
    {
      var o := AddendArray(other);
      if |amplitudes| != BasisLength(basis) {
        return Failure(ValueError);
      }
      var c := new State.Copied(basis, amplitudes);
      if |o| != |amplitudes| {
        return Failure(ValueError);
      }
      var _ := c.SetState(AddAll(amplitudes, o), true, root);
      return Success(c);
    }

    /**
     * `@` (DiscreteState only): the matrix applied to a normalised copy. The
     * result is not normalised again, and a matrix with a different number of
     * rows than columns leaves a state whose array no longer matches its
     * labels; a column count that differs from the array raises ValueError.
     */
    method MatMul(m: Matrix, root: real) returns (r: Result<State>)
      requires basis.DiscreteBasis? && WellShapedMatrix(m)
      requires |amplitudes| == BasisLength(basis) ==> root > 0.0 && root * root == Inner(basis, amplitudes, amplitudes).re
      ensures |amplitudes| != BasisLength(basis) || m.cols != |amplitudes| ==> r == Failure(ValueError)
      ensures |amplitudes| == BasisLength(basis) && m.cols == |amplitudes| ==>
        r.Success? && fresh(r.value) && r.value.basis == basis &&
        r.value.amplitudes == MatVec(m, DivideAll(amplitudes, root))
    {
      var copy := Copy(root);
      if copy.Failure? {
        return Failure(copy.error);
      }
      var s := copy.value;
      if m.cols != |s.amplitudes| {
        return Failure(ValueError);
      }
      s.amplitudes := MatVec(m, s.amplitudes);
      return Success(s);
    }

    /** toArray: a new array holding the amplitudes, shared with nothing. */
    method ToArray() returns (a: array<Complex>)
      ensures fresh(a) && a[..] == amplitudes
    {
      a := new Complex[|amplitudes|](i requires 0 <= i < |amplitudes| reads this => amplitudes[i]);
    }
  }
}
