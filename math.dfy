/**
 * QSim/Math.py: the finite-difference Laplacians on 1-, 2- and 3-axis grids,
 * the dispatch between them, and trapezoidal quadrature over one axis and
 * over every axis of an N-dimensional array.
 *
 * Array elements are exact reals. Every operation here is linear and acts on
 * the real and imaginary parts of a complex128 array independently, so a
 * complex array is the pair of its real and imaginary arrays.
 */
module Math {
  import opened Results

  // ---------------------------------------------------------------------
  // Grids
  // ---------------------------------------------------------------------

  /** Number of columns of a 2-axis grid (0 when it has no rows). */
  function Width(g: seq<seq<real>>): nat {
    if |g| == 0 then 0 else |g[0]|
  }

  /** A 2-axis numpy array: every row has the same length. */
  ghost predicate Rectangular(g: seq<seq<real>>) {
    forall i :: 0 <= i < |g| ==> |g[i]| == Width(g)
  }

  /** Extent of the second axis of a 3-axis grid. */
  function Height3(g: seq<seq<seq<real>>>): nat {
    if |g| == 0 then 0 else |g[0]|
  }

  /** Extent of the third axis of a 3-axis grid. */
  function Depth3(g: seq<seq<seq<real>>>): nat {
    if |g| == 0 || |g[0]| == 0 then 0 else |g[0][0]|
  }

  /** A 3-axis numpy array: a box of shape |g| × Height3(g) × Depth3(g). */
  ghost predicate Box(g: seq<seq<seq<real>>>) {
    forall i :: 0 <= i < |g| ==>
      |g[i]| == Height3(g) && forall j :: 0 <= j < |g[i]| ==> |g[i][j]| == Depth3(g)
  }

  /** The values g[0][j], g[1][j], … along axis 0 of a 2-axis grid. */
  function Column(g: seq<seq<real>>, j: nat): (c: seq<real>)
    requires Rectangular(g) && j < Width(g)
    ensures |c| == |g|
  {
    seq(|g|, i requires 0 <= i < |g| => g[i][j])
  }

  // ---------------------------------------------------------------------
  // Finite-difference Laplacian
  // ---------------------------------------------------------------------

  /**
   * The three-point central difference (next - 2·mid + prev) / Δ². Dividing
   * by Δ twice is the same real number as dividing by Δ², and keeps the
   * proofs below in linear arithmetic.
   */
  function Stencil(prev: real, mid: real, next: real, delta: real): real
    requires delta != 0.0
  {
    (next - 2.0 * mid + prev) / delta / delta
  }

  /** Entry i of `laplacian1D(psi, [delta])`: the stencil at interior indices, 0 at both ends. */
  function Laplacian1DAt(psi: seq<real>, delta: real, i: int): real
    requires delta != 0.0 && 0 <= i < |psi|
  {
    if 0 < i < |psi| - 1 then Stencil(psi[i - 1], psi[i], psi[i + 1], delta) else 0.0
  }

  /** The axis-0 contribution to entry (i, j) of laplacian2D. */
  function Axis0Term2(g: seq<seq<real>>, d: real, i: int, j: int): real
    requires Rectangular(g) && d != 0.0
    requires 0 <= i < |g| && 0 <= j < Width(g)
  {
    if 0 < i < |g| - 1 then Stencil(g[i - 1][j], g[i][j], g[i + 1][j], d) else 0.0
  }

  /** The axis-1 contribution to entry (i, j) of laplacian2D. */
  function Axis1Term2(g: seq<seq<real>>, d: real, i: int, j: int): real
    requires Rectangular(g) && d != 0.0
    requires 0 <= i < |g| && 0 <= j < Width(g)
  {
    if 0 < j < Width(g) - 1 then Stencil(g[i][j - 1], g[i][j], g[i][j + 1], d) else 0.0
  }

  /**
   * Entry (i, j) of `laplacian2D(psi, [d0, d1])`: the axis-0 stencil where i
   * is interior plus the axis-1 stencil where j is interior.
   */
  function Laplacian2DAt(g: seq<seq<real>>, d0: real, d1: real, i: int, j: int): real
    requires Rectangular(g) && d0 != 0.0 && d1 != 0.0
    requires 0 <= i < |g| && 0 <= j < Width(g)
  {
    Axis0Term2(g, d0, i, j) + Axis1Term2(g, d1, i, j)
  }

  /** The axis-0 contribution to entry (i, j, k) of laplacian3D. */
  function Axis0Term3(g: seq<seq<seq<real>>>, d: real, i: int, j: int, k: int): real
    requires Box(g) && d != 0.0
    requires 0 <= i < |g| && 0 <= j < Height3(g) && 0 <= k < Depth3(g)
  {
    if 0 < i < |g| - 1 then Stencil(g[i - 1][j][k], g[i][j][k], g[i + 1][j][k], d) else 0.0
  }

  /** The axis-1 contribution to entry (i, j, k) of laplacian3D. */
  function Axis1Term3(g: seq<seq<seq<real>>>, d: real, i: int, j: int, k: int): real
    requires Box(g) && d != 0.0
    requires 0 <= i < |g| && 0 <= j < Height3(g) && 0 <= k < Depth3(g)
  {
    if 0 < j < Height3(g) - 1 then Stencil(g[i][j - 1][k], g[i][j][k], g[i][j + 1][k], d) else 0.0
  }

  /** The axis-2 contribution to entry (i, j, k) of laplacian3D. */
  function Axis2Term3(g: seq<seq<seq<real>>>, d: real, i: int, j: int, k: int): real
    requires Box(g) && d != 0.0
    requires 0 <= i < |g| && 0 <= j < Height3(g) && 0 <= k < Depth3(g)
  {
    if 0 < k < Depth3(g) - 1 then Stencil(g[i][j][k - 1], g[i][j][k], g[i][j][k + 1], d) else 0.0
  }

  /** Entry (i, j, k) of `laplacian3D(psi, [d0, d1, d2])`: each axis contributes where its index is interior. */
  function Laplacian3DAt(g: seq<seq<seq<real>>>, d0: real, d1: real, d2: real, i: int, j: int, k: int): real
    requires Box(g) && d0 != 0.0 && d1 != 0.0 && d2 != 0.0
    requires 0 <= i < |g| && 0 <= j < Height3(g) && 0 <= k < Depth3(g)
  {
    Axis0Term3(g, d0, i, j, k) + Axis1Term3(g, d1, i, j, k) + Axis2Term3(g, d2, i, j, k)
  }

  /**
   * laplacian1D: a zero array of psi's length whose slice [1:-1] is
   * assigned the stencil along axis 0.
   */
  method Laplacian1D(psi: seq<real>, deltas: seq<real>) returns (result: array<real>)
    requires |deltas| >= 1 && deltas[0] != 0.0
    ensures fresh(result) && result.Length == |psi|
    ensures forall i :: 0 <= i < |psi| ==> result[i] == Laplacian1DAt(psi, deltas[0], i)
  {
    result := new real[|psi|](_ => 0.0);
    forall i | 1 <= i < |psi| - 1 {
      result[i] := Stencil(psi[i - 1], psi[i], psi[i + 1], deltas[0]);
    }
  }

  /**
   * laplacian2D: a zero array; rows [1:-1] are assigned the axis-0 stencil,
   * then columns [:, 1:-1] have the axis-1 stencil added.
   */
  method Laplacian2D(psi: seq<seq<real>>, deltas: seq<real>) returns (result: array2<real>)
    requires Rectangular(psi)
    requires |deltas| >= 2 && deltas[0] != 0.0 && deltas[1] != 0.0
    ensures fresh(result) && result.Length0 == |psi| && result.Length1 == Width(psi)
    ensures forall i, j :: 0 <= i < |psi| && 0 <= j < Width(psi) ==>
      result[i, j] == Laplacian2DAt(psi, deltas[0], deltas[1], i, j)
  {
    result := new real[|psi|, Width(psi)]((i, j) => 0.0);
    AssignAxis0Pass2(result, psi, deltas[0]);
    AddAxis1Pass2(result, psi, deltas[1]);
  }

  /** First pass of laplacian2D: interior rows of a zero array receive the axis-0 stencil. */
  method AssignAxis0Pass2(result: array2<real>, psi: seq<seq<real>>, d: real)
    requires Rectangular(psi) && d != 0.0
    requires result.Length0 == |psi| && result.Length1 == Width(psi)
    requires forall i, j :: 0 <= i < result.Length0 && 0 <= j < result.Length1 ==> result[i, j] == 0.0
    modifies result
    ensures forall i, j :: 0 <= i < result.Length0 && 0 <= j < result.Length1 ==>
      result[i, j] == Axis0Term2(psi, d, i, j)
  {
    var n: int, m: int := result.Length0, result.Length1;
    forall i, j | 1 <= i < n - 1 && 0 <= j < m {
      result[i, j] := Stencil(psi[i - 1][j], psi[i][j], psi[i + 1][j], d);
    }
  }

  /** Second pass of laplacian2D: interior columns have the axis-1 stencil added. */
  method AddAxis1Pass2(result: array2<real>, psi: seq<seq<real>>, d: real)
    requires Rectangular(psi) && d != 0.0
    requires result.Length0 == |psi| && result.Length1 == Width(psi)
    modifies result
    ensures forall i, j :: 0 <= i < result.Length0 && 0 <= j < result.Length1 ==>
      result[i, j] == old(result[i, j]) + Axis1Term2(psi, d, i, j)
  {
    var n: int, m: int := result.Length0, result.Length1;
    forall i, j | 0 <= i < n && 1 <= j < m - 1 {
      result[i, j] := result[i, j] + Stencil(psi[i][j - 1], psi[i][j], psi[i][j + 1], d);
    }
  }

  /** laplacian3D: as laplacian2D, with a third pass adding the axis-2 stencil on [:, :, 1:-1]. */
  method Laplacian3D(psi: seq<seq<seq<real>>>, deltas: seq<real>) returns (result: array3<real>)
    requires Box(psi)
    requires |deltas| >= 3 && deltas[0] != 0.0 && deltas[1] != 0.0 && deltas[2] != 0.0
    ensures fresh(result)
    ensures result.Length0 == |psi| && result.Length1 == Height3(psi) && result.Length2 == Depth3(psi)
    ensures forall i, j, k :: 0 <= i < |psi| && 0 <= j < Height3(psi) && 0 <= k < Depth3(psi) ==>
      result[i, j, k] == Laplacian3DAt(psi, deltas[0], deltas[1], deltas[2], i, j, k)
  {
    result := new real[|psi|, Height3(psi), Depth3(psi)]((i, j, k) => 0.0);
    AssignAxis0Pass3(result, psi, deltas[0]);
    AddAxis1Pass3(result, psi, deltas[1]);
    AddAxis2Pass3(result, psi, deltas[2]);
  }

  /** First pass of laplacian3D: interior planes along axis 0 of a zero array receive the axis-0 stencil. */
  method AssignAxis0Pass3(result: array3<real>, psi: seq<seq<seq<real>>>, d: real)
    requires Box(psi) && d != 0.0
    requires result.Length0 == |psi| && result.Length1 == Height3(psi) && result.Length2 == Depth3(psi)
    requires forall i, j, k :: 0 <= i < result.Length0 && 0 <= j < result.Length1 && 0 <= k < result.Length2 ==>
      result[i, j, k] == 0.0
    modifies result
    ensures forall i, j, k :: 0 <= i < result.Length0 && 0 <= j < result.Length1 && 0 <= k < result.Length2 ==>
      result[i, j, k] == Axis0Term3(psi, d, i, j, k)
  {
    var n: int, m: int, p: int := result.Length0, result.Length1, result.Length2;
    forall i, j, k | 1 <= i < n - 1 && 0 <= j < m && 0 <= k < p {
      result[i, j, k] := Stencil(psi[i - 1][j][k], psi[i][j][k], psi[i + 1][j][k], d);
    }
  }

  /** Second pass of laplacian3D: cells interior along axis 1 have the axis-1 stencil added. */
  method AddAxis1Pass3(result: array3<real>, psi: seq<seq<seq<real>>>, d: real)
    requires Box(psi) && d != 0.0
    requires result.Length0 == |psi| && result.Length1 == Height3(psi) && result.Length2 == Depth3(psi)
    modifies result
    ensures forall i, j, k :: 0 <= i < result.Length0 && 0 <= j < result.Length1 && 0 <= k < result.Length2 ==>
      result[i, j, k] == old(result[i, j, k]) + Axis1Term3(psi, d, i, j, k)
  {
    var n: int, m: int, p: int := result.Length0, result.Length1, result.Length2;
    forall i, j, k | 0 <= i < n && 1 <= j < m - 1 && 0 <= k < p {
      result[i, j, k] := result[i, j, k] + Stencil(psi[i][j - 1][k], psi[i][j][k], psi[i][j + 1][k], d);
    }
  }

  /** Third pass of laplacian3D: cells interior along axis 2 have the axis-2 stencil added. */
  method AddAxis2Pass3(result: array3<real>, psi: seq<seq<seq<real>>>, d: real)
    requires Box(psi) && d != 0.0
    requires result.Length0 == |psi| && result.Length1 == Height3(psi) && result.Length2 == Depth3(psi)
    modifies result
    ensures forall i, j, k :: 0 <= i < result.Length0 && 0 <= j < result.Length1 && 0 <= k < result.Length2 ==>
      result[i, j, k] == old(result[i, j, k]) + Axis2Term3(psi, d, i, j, k)
  {
    var n: int, m: int, p: int := result.Length0, result.Length1, result.Length2;
    forall i, j, k | 0 <= i < n && 0 <= j < m && 1 <= k < p - 1 {
      result[i, j, k] := result[i, j, k] + Stencil(psi[i][j][k - 1], psi[i][j][k], psi[i][j][k + 1], d);
    }
  }

  /** The dispatching part of `laplacian`, which picks the stencil code by the number of spacings. */
  datatype Grid = Line(xs: seq<real>) | Plane(rows: seq<seq<real>>) | Volume(cells: seq<seq<seq<real>>>)

  /** The number of axes of a grid. */
  function Rank(g: Grid): nat {
    match g
    case Line(_) => 1
    case Plane(_) => 2
    case Volume(_) => 3
  }

  /** Every grid is a numpy array, so its rows (and planes) all have the same shape. */
  ghost predicate WellShaped(g: Grid) {
    match g
    case Line(_) => true
    case Plane(rows) => Rectangular(rows)
    case Volume(cells) => Box(cells)
  }

  /**
   * What `laplacian` returns: the laplacian1D array, the laplacian2D array, or
   * a result this model does not compute (the scipy and np.gradient branches,
   * and a grid whose rank differs from the number of spacings). There is no
   * three-axis variant: laplacian3D is not reachable from the dispatch.
   */
  datatype LaplacianResult = OneAxis(line: array<real>) | TwoAxes(plane: array2<real>) | Unmodelled

  /** laplacian: one spacing selects laplacian1D, two select laplacian2D, anything else leaves the stencil code. */
  method Laplacian(psi: Grid, deltas: seq<real>) returns (r: LaplacianResult)
    requires WellShaped(psi)
    requires forall k :: 0 <= k < |deltas| ==> deltas[k] != 0.0
    ensures |deltas| == 1 && psi.Line? ==>
      r.OneAxis? && fresh(r.line) && r.line.Length == |psi.xs| &&
      forall i :: 0 <= i < |psi.xs| ==> r.line[i] == Laplacian1DAt(psi.xs, deltas[0], i)
    ensures |deltas| == 2 && psi.Plane? ==>
      r.TwoAxes? && fresh(r.plane) && r.plane.Length0 == |psi.rows| && r.plane.Length1 == Width(psi.rows) &&
      forall i, j :: 0 <= i < |psi.rows| && 0 <= j < Width(psi.rows) ==>
        r.plane[i, j] == Laplacian2DAt(psi.rows, deltas[0], deltas[1], i, j)
    ensures r.OneAxis? <==> |deltas| == 1 && psi.Line?
    ensures r.TwoAxes? <==> |deltas| == 2 && psi.Plane?
  {
    if |deltas| == 1 && psi.Line? {
      var line := Laplacian1D(psi.xs, deltas);
      r := OneAxis(line);
    } else if |deltas| == 2 && psi.Plane? {
      var plane := Laplacian2D(psi.rows, deltas);
      r := TwoAxes(plane);
    } else {
      r := Unmodelled;
    }
  }

  // ---------------------------------------------------------------------
  // Properties of the stencil Laplacians
  // ---------------------------------------------------------------------

  /** (k·d)/d == k for non-zero d. */
  lemma CancelFactor(k: real, d: real)
    requires d != 0.0
    ensures (k * d) / d == k
  {
  }

  /** The stencil is linear in the three samples. */
  lemma StencilLinear(a: real, p0: real, p1: real, p2: real, b: real, q0: real, q1: real, q2: real,
                      r0: real, r1: real, r2: real, d: real)
    requires d != 0.0
    requires r0 == a * p0 + b * q0 && r1 == a * p1 + b * q1 && r2 == a * p2 + b * q2
    ensures Stencil(r0, r1, r2, d) == a * Stencil(p0, p1, p2, d) + b * Stencil(q0, q1, q2, d)
  {
    var x, y := p2 - 2.0 * p1 + p0, q2 - 2.0 * q1 + q0;
    assert r2 - 2.0 * r1 + r0 == a * x + b * y;
    assert (a * x + b * y) / d == a * (x / d) + b * (y / d);
    assert (a * (x / d) + b * (y / d)) / d == a * (x / d / d) + b * (y / d / d);
  }

  /** Adding the same value to all three samples leaves the stencil unchanged. */
  lemma StencilShift(p0: real, p1: real, p2: real, c: real, d: real)
    requires d != 0.0
    ensures Stencil(p0 + c, p1 + c, p2 + c, d) == Stencil(p0, p1, p2, d)
  {
    StencilLinear(1.0, p0, p1, p2, 1.0, c, c, c, p0 + c, p1 + c, p2 + c, d);
    assert Stencil(c, c, c, d) == 0.0;
  }

  /** 2.0 where an index is interior to an axis of length n, else 0.0. */
  function InteriorTwo(i: int, n: int): real {
    if 0 < i < n - 1 then 2.0 else 0.0
  }

  /** The sample (i·Δ)². */
  function SquareSample(i: int, delta: real): real {
    ((i as real) * delta) * ((i as real) * delta)
  }

  /** On samples of an affine function c + s·i, laplacian1D is zero everywhere. */
  lemma Laplacian1DOfAffine(psi: seq<real>, delta: real, c: real, s: real)
    requires delta != 0.0
    requires forall i :: 0 <= i < |psi| ==> psi[i] == c + s * (i as real)
    ensures forall i :: 0 <= i < |psi| ==> Laplacian1DAt(psi, delta, i) == 0.0
  {
    forall i | 0 < i < |psi| - 1
      ensures Laplacian1DAt(psi, delta, i) == 0.0
    {
      var x := i as real;
      assert psi[i - 1] == c + s * (x - 1.0) && psi[i + 1] == c + s * (x + 1.0);
      assert psi[i + 1] - 2.0 * psi[i] + psi[i - 1] == 0.0;
    }
  }

  /** On ψ[i] = (i·Δ)², laplacian1D is exactly 2 at every interior index and 0 at both ends. */
  lemma Laplacian1DOfSquare(psi: seq<real>, delta: real)
    requires delta != 0.0
    requires forall i :: 0 <= i < |psi| ==> psi[i] == SquareSample(i, delta)
    ensures forall i :: 0 <= i < |psi| ==> Laplacian1DAt(psi, delta, i) == InteriorTwo(i, |psi|)
  {
    forall i | 0 < i < |psi| - 1
      ensures Laplacian1DAt(psi, delta, i) == 2.0
    {
      SquareStep(i, delta);
    }
  }

  /**
   * On ψ[i][j] = (iΔ₀)² + (jΔ₁)², laplacian2D is 2 for each axis whose index is
   * interior: 4 inside, 2 on the edges, 0 at the four corners.
   */
  lemma Laplacian2DOfSquare(g: seq<seq<real>>, d0: real, d1: real)
    requires Rectangular(g) && d0 != 0.0 && d1 != 0.0
    requires forall i, j :: 0 <= i < |g| && 0 <= j < |g[i]| ==> g[i][j] == SquareSample(i, d0) + SquareSample(j, d1)
    ensures forall i, j :: 0 <= i < |g| && 0 <= j < Width(g) ==>
      Laplacian2DAt(g, d0, d1, i, j) == InteriorTwo(i, |g|) + InteriorTwo(j, Width(g))
  {
    forall i, j | 0 <= i < |g| && 0 <= j < Width(g)
      ensures Laplacian2DAt(g, d0, d1, i, j) == InteriorTwo(i, |g|) + InteriorTwo(j, Width(g))
    {
      var si, sj := SquareSample(i, d0), SquareSample(j, d1);
      if 0 < i < |g| - 1 {
        ShiftedSquareStep(i, d0, sj, g[i - 1][j], g[i][j], g[i + 1][j]);
      }
      if 0 < j < Width(g) - 1 {
        ShiftedSquareStep(j, d1, si, g[i][j - 1], g[i][j], g[i][j + 1]);
      }
    }
  }

  /** The stencil of three consecutive samples of x² + c, for any offset c, is exactly 2. */
  lemma ShiftedSquareStep(i: int, d: real, c: real, p0: real, p1: real, p2: real)
    requires d != 0.0
    requires p0 == SquareSample(i - 1, d) + c && p1 == SquareSample(i, d) + c && p2 == SquareSample(i + 1, d) + c
    ensures Stencil(p0, p1, p2, d) == 2.0
  {
    StencilShift(SquareSample(i - 1, d), SquareSample(i, d), SquareSample(i + 1, d), c, d);
    SquareStep(i, d);
  }

  /** The stencil of three consecutive samples of x² is exactly 2. */
  lemma SquareStep(i: int, d: real)
    requires d != 0.0
    ensures Stencil(SquareSample(i - 1, d), SquareSample(i, d), SquareSample(i + 1, d), d) == 2.0
  {
    var x := i as real;
    assert SquareSample(i - 1, d) == ((x - 1.0) * d) * ((x - 1.0) * d);
    assert SquareSample(i + 1, d) == ((x + 1.0) * d) * ((x + 1.0) * d);
    var n := SquareSample(i + 1, d) - 2.0 * SquareSample(i, d) + SquareSample(i - 1, d);
    assert n == (2.0 * d) * d;
    CancelFactor(2.0 * d, d);
    assert n / d == 2.0 * d;
    CancelFactor(2.0, d);
  }

  /** On ψ[i][j][k] = (iΔ₀)² + (jΔ₁)² + (kΔ₂)², laplacian3D is 2 for each axis whose index is interior. */
  lemma Laplacian3DOfSquare(g: seq<seq<seq<real>>>, d0: real, d1: real, d2: real)
    requires Box(g) && d0 != 0.0 && d1 != 0.0 && d2 != 0.0
    requires forall i, j, k :: 0 <= i < |g| && 0 <= j < |g[i]| && 0 <= k < |g[i][j]| ==>
      g[i][j][k] == SquareSample(i, d0) + SquareSample(j, d1) + SquareSample(k, d2)
    ensures forall i, j, k :: 0 <= i < |g| && 0 <= j < Height3(g) && 0 <= k < Depth3(g) ==>
      Laplacian3DAt(g, d0, d1, d2, i, j, k) == InteriorTwo(i, |g|) + InteriorTwo(j, Height3(g)) + InteriorTwo(k, Depth3(g))
  {
    forall i, j, k | 0 <= i < |g| && 0 <= j < Height3(g) && 0 <= k < Depth3(g)
      ensures Laplacian3DAt(g, d0, d1, d2, i, j, k) == InteriorTwo(i, |g|) + InteriorTwo(j, Height3(g)) + InteriorTwo(k, Depth3(g))
    {
      var si, sj, sk := SquareSample(i, d0), SquareSample(j, d1), SquareSample(k, d2);
      if 0 < i < |g| - 1 {
        ShiftedSquareStep(i, d0, sj + sk, g[i - 1][j][k], g[i][j][k], g[i + 1][j][k]);
      }
      if 0 < j < Height3(g) - 1 {
        ShiftedSquareStep(j, d1, si + sk, g[i][j - 1][k], g[i][j][k], g[i][j + 1][k]);
      }
      if 0 < k < Depth3(g) - 1 {
        ShiftedSquareStep(k, d2, si + sj, g[i][j][k - 1], g[i][j][k], g[i][j][k + 1]);
      }
    }
  }

  /** The elementwise combination a·xs + b·ys of two equally long arrays. */
  function Combine(a: real, xs: seq<real>, b: real, ys: seq<real>): (r: seq<real>)
    requires |xs| == |ys|
    ensures |r| == |xs|
    ensures forall i :: 0 <= i < |xs| ==> r[i] == a * xs[i] + b * ys[i]
  {
    seq(|xs|, i requires 0 <= i < |xs| => a * xs[i] + b * ys[i])
  }

  /** The elementwise combination a·g + b·h of two grids of the same shape. */
  function Combine2(a: real, g: seq<seq<real>>, b: real, h: seq<seq<real>>): (r: seq<seq<real>>)
    requires |g| == |h| && forall i :: 0 <= i < |g| ==> |g[i]| == |h[i]|
    ensures |r| == |g|
  {
    seq(|g|, i requires 0 <= i < |g| => Combine(a, g[i], b, h[i]))
  }

  /** laplacian1D is linear: L(aψ + bφ) = a·Lψ + b·Lφ at every index. */
  lemma Laplacian1DLinear(a: real, psi: seq<real>, b: real, phi: seq<real>, delta: real)
    requires |psi| == |phi| && delta != 0.0
    ensures forall i :: 0 <= i < |psi| ==>
      Laplacian1DAt(Combine(a, psi, b, phi), delta, i) == a * Laplacian1DAt(psi, delta, i) + b * Laplacian1DAt(phi, delta, i)
  {
    forall i | 0 < i < |psi| - 1
      ensures Laplacian1DAt(Combine(a, psi, b, phi), delta, i) == a * Laplacian1DAt(psi, delta, i) + b * Laplacian1DAt(phi, delta, i)
    {
      var c := Combine(a, psi, b, phi);
      StencilLinear(a, psi[i - 1], psi[i], psi[i + 1], b, phi[i - 1], phi[i], phi[i + 1], c[i - 1], c[i], c[i + 1], delta);
    }
  }

  /** laplacian2D is linear: L(aψ + bφ) = a·Lψ + b·Lφ at every cell. */
  lemma Laplacian2DLinear(a: real, g: seq<seq<real>>, b: real, h: seq<seq<real>>, d0: real, d1: real)
    requires Rectangular(g) && Rectangular(h) && |g| == |h| && Width(g) == Width(h)
    requires d0 != 0.0 && d1 != 0.0
    ensures Rectangular(Combine2(a, g, b, h)) && Width(Combine2(a, g, b, h)) == Width(g)
    ensures forall i, j :: 0 <= i < |g| && 0 <= j < Width(g) ==>
      Laplacian2DAt(Combine2(a, g, b, h), d0, d1, i, j)
        == a * Laplacian2DAt(g, d0, d1, i, j) + b * Laplacian2DAt(h, d0, d1, i, j)
  {
    var c := Combine2(a, g, b, h);
    assert Rectangular(c);
    assert forall i, j :: 0 <= i < |c| && 0 <= j < |c[i]| ==> c[i][j] == a * g[i][j] + b * h[i][j];
    forall i, j | 0 <= i < |g| && 0 <= j < Width(g)
      ensures Laplacian2DAt(c, d0, d1, i, j) == a * Laplacian2DAt(g, d0, d1, i, j) + b * Laplacian2DAt(h, d0, d1, i, j)
    {
      Laplacian2DLinearAt(a, g, b, h, c, d0, d1, i, j);
    }
  }

  /** One cell of Laplacian2DLinear. */
  lemma Laplacian2DLinearAt(a: real, g: seq<seq<real>>, b: real, h: seq<seq<real>>, c: seq<seq<real>>,
                            d0: real, d1: real, i: int, j: int)
    requires Rectangular(g) && Rectangular(h) && Rectangular(c) && d0 != 0.0 && d1 != 0.0
    requires |g| == |h| == |c| && Width(g) == Width(h) == Width(c)
    requires forall i, j :: 0 <= i < |c| && 0 <= j < |c[i]| ==> c[i][j] == a * g[i][j] + b * h[i][j]
    requires 0 <= i < |g| && 0 <= j < Width(g)
    ensures Laplacian2DAt(c, d0, d1, i, j) == a * Laplacian2DAt(g, d0, d1, i, j) + b * Laplacian2DAt(h, d0, d1, i, j)
  {
    Axis0Term2Linear(a, g, b, h, c, d0, i, j);
    Axis1Term2Linear(a, g, b, h, c, d1, i, j);
    Distribute(a, b, Axis0Term2(g, d0, i, j), Axis0Term2(h, d0, i, j), Axis1Term2(g, d1, i, j), Axis1Term2(h, d1, i, j),
               Axis0Term2(c, d0, i, j), Axis1Term2(c, d1, i, j));
  }

  /** The axis-0 term of laplacian2D is linear in the grid. */
  lemma Axis0Term2Linear(a: real, g: seq<seq<real>>, b: real, h: seq<seq<real>>, c: seq<seq<real>>, d: real, i: int, j: int)
    requires Rectangular(g) && Rectangular(h) && Rectangular(c) && d != 0.0
    requires |g| == |h| == |c| && Width(g) == Width(h) == Width(c)
    requires forall i, j :: 0 <= i < |c| && 0 <= j < |c[i]| ==> c[i][j] == a * g[i][j] + b * h[i][j]
    requires 0 <= i < |g| && 0 <= j < Width(g)
    ensures Axis0Term2(c, d, i, j) == a * Axis0Term2(g, d, i, j) + b * Axis0Term2(h, d, i, j)
  {
    if 0 < i < |g| - 1 {
      StencilLinear(a, g[i - 1][j], g[i][j], g[i + 1][j], b, h[i - 1][j], h[i][j], h[i + 1][j],
                    c[i - 1][j], c[i][j], c[i + 1][j], d);
    }
  }

  /** The axis-1 term of laplacian2D is linear in the grid. */
  lemma Axis1Term2Linear(a: real, g: seq<seq<real>>, b: real, h: seq<seq<real>>, c: seq<seq<real>>, d: real, i: int, j: int)
    requires Rectangular(g) && Rectangular(h) && Rectangular(c) && d != 0.0
    requires |g| == |h| == |c| && Width(g) == Width(h) == Width(c)
    requires forall i, j :: 0 <= i < |c| && 0 <= j < |c[i]| ==> c[i][j] == a * g[i][j] + b * h[i][j]
    requires 0 <= i < |g| && 0 <= j < Width(g)
    ensures Axis1Term2(c, d, i, j) == a * Axis1Term2(g, d, i, j) + b * Axis1Term2(h, d, i, j)
  {
    if 0 < j < Width(g) - 1 {
      StencilLinear(a, g[i][j - 1], g[i][j], g[i][j + 1], b, h[i][j - 1], h[i][j], h[i][j + 1],
                    c[i][j - 1], c[i][j], c[i][j + 1], d);
    }
  }

  /** Two linear combinations with the same coefficients add up to the combination of the sums. */
  lemma Distribute(a: real, b: real, x0: real, y0: real, x1: real, y1: real, r0: real, r1: real)
    requires r0 == a * x0 + b * y0 && r1 == a * x1 + b * y1
    ensures r0 + r1 == a * (x0 + x1) + b * (y0 + y1)
  {
  }

  /** laplacian2D is laplacian1D along each column plus laplacian1D along each row. */
  lemma Laplacian2DByAxes(g: seq<seq<real>>, d0: real, d1: real)
    requires Rectangular(g) && d0 != 0.0 && d1 != 0.0
    ensures forall i, j :: 0 <= i < |g| && 0 <= j < Width(g) ==>
      Laplacian2DAt(g, d0, d1, i, j) == Laplacian1DAt(Column(g, j), d0, i) + Laplacian1DAt(g[i], d1, j)
  {
  }

  // ---------------------------------------------------------------------
  // Trapezoidal quadrature
  // ---------------------------------------------------------------------

  /** integrateArray along one axis: Σ_{i < n-1} (a[i+1] + a[i]) / 2 · δ, which is 0 when n ≤ 1. */
  function TrapezoidSum(a: seq<real>, delta: real): real
    decreases |a|
  {
    if |a| <= 1 then 0.0 else TrapezoidSum(a[..|a| - 1], delta) + (a[|a| - 1] + a[|a| - 2]) / 2.0 * delta
  }

  /** A constant array c of n ≥ 1 samples integrates to c·(n-1)·δ; in particular one sample gives 0. */
  lemma {:induction false} TrapezoidConstant(a: seq<real>, c: real, delta: real, total: real)
    requires |a| >= 1 && forall i :: 0 <= i < |a| ==> a[i] == c
    requires total == c * (|a| as real - 1.0) * delta
    ensures TrapezoidSum(a, delta) == total
  {
    if |a| > 1 {
      var k := |a| as real - 2.0;
      var front := c * k * delta;
      TrapezoidConstant(a[..|a| - 1], c, delta, front);
      assert TrapezoidSum(a, delta) == front + (c + c) / 2.0 * delta;
      assert front + (c + c) / 2.0 * delta == c * (k + 1.0) * delta;
    }
  }

  /** integrateArray is linear in the samples. */
  lemma TrapezoidLinear(a: real, xs: seq<real>, b: real, ys: seq<real>, delta: real)
    requires |xs| == |ys|
    ensures TrapezoidSum(Combine(a, xs, b, ys), delta) == a * TrapezoidSum(xs, delta) + b * TrapezoidSum(ys, delta)
  {
    TrapezoidOfCombination(a, xs, b, ys, Combine(a, xs, b, ys), delta);
  }

  /** TrapezoidLinear for any array cs whose samples are a·xs[i] + b·ys[i]. */
  lemma TrapezoidOfCombination(a: real, xs: seq<real>, b: real, ys: seq<real>, cs: seq<real>, delta: real)
    requires |xs| == |ys| == |cs|
    requires forall i :: 0 <= i < |cs| ==> cs[i] == a * xs[i] + b * ys[i]
    ensures TrapezoidSum(cs, delta) == a * TrapezoidSum(xs, delta) + b * TrapezoidSum(ys, delta)
  {
    var us := seq(|xs|, i requires 0 <= i < |xs| => a * xs[i]);
    var vs := seq(|ys|, i requires 0 <= i < |ys| => b * ys[i]);
    assert forall i :: 0 <= i < |us| ==> us[i] == a * xs[i];
    assert forall i :: 0 <= i < |vs| ==> vs[i] == b * ys[i];
    assert forall i :: 0 <= i < |cs| ==> cs[i] == us[i] + vs[i];
    TrapezoidAdditive(us, vs, cs, delta);
    TrapezoidHomogeneous(a, xs, us, delta);
    TrapezoidHomogeneous(b, ys, vs, delta);
  }

  /** The trapezoid sum of samples us[i] + vs[i] is the sum of the two trapezoid sums. */
  lemma {:induction false} TrapezoidAdditive(us: seq<real>, vs: seq<real>, cs: seq<real>, delta: real)
    requires |us| == |vs| == |cs|
    requires forall i :: 0 <= i < |cs| ==> cs[i] == us[i] + vs[i]
    ensures TrapezoidSum(cs, delta) == TrapezoidSum(us, delta) + TrapezoidSum(vs, delta)
    decreases |cs|
  {
    if |cs| > 1 {
      var n := |cs|;
      assert cs[n - 2] == us[n - 2] + vs[n - 2] && cs[n - 1] == us[n - 1] + vs[n - 1];
      assert (cs[n - 1] + cs[n - 2]) / 2.0 * delta == (us[n - 1] + us[n - 2]) / 2.0 * delta + (vs[n - 1] + vs[n - 2]) / 2.0 * delta;
      TrapezoidAdditive(us[..n - 1], vs[..n - 1], cs[..n - 1], delta);
    }
  }

  /** The trapezoid sum of samples k·xs[i] is k times the trapezoid sum of xs. */
  lemma {:induction false} TrapezoidHomogeneous(k: real, xs: seq<real>, us: seq<real>, delta: real)
    requires |xs| == |us|
    requires forall i :: 0 <= i < |us| ==> us[i] == k * xs[i]
    ensures TrapezoidSum(us, delta) == k * TrapezoidSum(xs, delta)
    decreases |us|
  {
    if |us| > 1 {
      var n := |us|;
      var px, pu := (xs[n - 1] + xs[n - 2]) / 2.0 * delta, (us[n - 1] + us[n - 2]) / 2.0 * delta;
      PanelHomogeneous(k, xs[n - 2], xs[n - 1], us[n - 2], us[n - 1], delta, px, pu);
      TrapezoidHomogeneous(k, xs[..n - 1], us[..n - 1], delta);
      ScaledStep(k, TrapezoidSum(xs[..n - 1], delta), TrapezoidSum(us[..n - 1], delta), px, pu,
                 TrapezoidSum(xs, delta), TrapezoidSum(us, delta));
    }
  }

  /** One panel of the trapezoid sum scales with its samples. */
  lemma PanelHomogeneous(k: real, x0: real, x1: real, u0: real, u1: real, delta: real, px: real, pu: real)
    requires u0 == k * x0 && u1 == k * x1
    requires px == (x1 + x0) / 2.0 * delta && pu == (u1 + u0) / 2.0 * delta
    ensures pu == k * px
  {
    assert (u1 + u0) / 2.0 == k * ((x1 + x0) / 2.0);
  }

  /** Adding k times a panel to k times a running sum gives k times the new sum. */
  lemma ScaledStep(k: real, tx: real, tu: real, px: real, pu: real, sx: real, su: real)
    requires tu == k * tx && pu == k * px && sx == tx + px && su == tu + pu
    ensures su == k * sx
  {
  }

  /** The number of elements of an array of the given shape. */
  function Product(shape: seq<nat>): nat {
    if |shape| == 0 then 1 else shape[0] * Product(shape[1..])
  }

  /** An N-axis numpy array of reals: its shape and its elements in row-major order. */
  datatype NdArray = NdArray(shape: seq<nat>, data: seq<real>)

  /** The element count agrees with the shape. */
  predicate WellFormed(a: NdArray) {
    |a.data| == Product(a.shape)
  }

  /** Row-major offsets stay in range: i·m + k < n·m when i < n and k < m. */
  lemma OffsetInRange(i: nat, k: nat, n: nat, m: nat)
    requires i < n && k < m
    ensures i * m + k < n * m
  {
    assert i * m + k < i * m + m == (i + 1) * m;
    assert (i + 1) * m <= n * m;
  }

  /** The elements a[0, …], a[1, …], … along the leading axis at trailing offset k. */
  function Fiber(a: NdArray, k: nat): (f: seq<real>)
    requires WellFormed(a) && |a.shape| > 0 && k < Product(a.shape[1..])
    ensures |f| == a.shape[0]
  {
    var n, m := a.shape[0], Product(a.shape[1..]);
    seq(n, i requires 0 <= i < n => OffsetInRange(i, k, n, m); a.data[i * m + k])
  }

  /**
   * integrateArray(array, delta): the trapezoid sum along the leading axis,
   * leaving an array of the remaining shape. Slicing a 0-axis array raises
   * IndexError.
   */
  function IntegrateArray(a: NdArray, delta: real := 1.0): (r: Result<NdArray>)
    requires WellFormed(a)
    ensures r.Success? <==> |a.shape| > 0
    ensures r.Failure? ==> r.error == IndexError
    ensures r.Success? ==> WellFormed(r.value) && r.value.shape == a.shape[1..]
  {
    if |a.shape| == 0 then Failure(IndexError)
    else
      var m := Product(a.shape[1..]);
      Success(NdArray(a.shape[1..], seq(m, k requires 0 <= k < m => TrapezoidSum(Fiber(a, k), delta))))
  }

  /** nquad(psi, deltas) as a value: integrateArray applied once per spacing, in order. */
  function NQuadSpec(a: NdArray, deltas: seq<real>): Result<NdArray>
    requires WellFormed(a)
    decreases |deltas|
  {
    if |deltas| == 0 then Success(a)
    else match IntegrateArray(a, deltas[0])
      case Failure(e) => Failure(e)
      case Success(b) => NQuadSpec(b, deltas[1..])
  }

  /**
   * nquad: a copy of psi is integrated along its leading axis once per
   * spacing. psi is a value here, so it is left as it was.
   */
  method NQuad(psi: NdArray, deltas: seq<real>) returns (r: Result<NdArray>)
    requires WellFormed(psi)
    ensures r == NQuadSpec(psi, deltas)
  {
    var result := psi;
    for t := 0 to |deltas|
      invariant WellFormed(result)
      invariant NQuadSpec(psi, deltas) == NQuadSpec(result, deltas[t..])
    {
      assert deltas[t..][1..] == deltas[t + 1..];
      var step := IntegrateArray(result, deltas[t]);
      if step.Failure? {
        return Failure(step.error);
      }
      result := step.value;
    }
    return Success(result);
  }

  /**
   * nquad succeeds exactly when there are no more spacings than axes, and
   * then the result has the shape left after dropping one leading axis per
   * spacing; otherwise it raises IndexError.
   */
  lemma {:induction false} NQuadShape(a: NdArray, deltas: seq<real>)
    requires WellFormed(a)
    ensures NQuadSpec(a, deltas).Success? <==> |deltas| <= |a.shape|
    ensures NQuadSpec(a, deltas).Success? ==> NQuadSpec(a, deltas).value.shape == a.shape[|deltas|..]
    ensures NQuadSpec(a, deltas).Failure? ==> NQuadSpec(a, deltas).error == IndexError
    decreases |deltas|
  {
    if |deltas| > 0 && |a.shape| > 0 {
      var b := IntegrateArray(a, deltas[0]).value;
      NQuadShape(b, deltas[1..]);
      if |deltas| <= |a.shape| {
        assert a.shape[1..][|deltas| - 1..] == a.shape[|deltas|..];
      }
    }
  }

  /** With one spacing on a 1-axis array, nquad is the scalar trapezoid sum of integrateArray. */
  lemma NQuadOneAxis(xs: seq<real>, delta: real)
    ensures WellFormed(NdArray([|xs|], xs))
    ensures NQuadSpec(NdArray([|xs|], xs), [delta]) == Success(NdArray([], [TrapezoidSum(xs, delta)]))
  {
    var a := NdArray([|xs|], xs);
    assert [|xs|][1..] == [];
    assert WellFormed(a);
    assert Fiber(a, 0) == xs;
    var b := NdArray([], [TrapezoidSum(xs, delta)]);
    assert Product(a.shape[1..]) == 1;
    assert IntegrateArray(a, delta).value.data == b.data;
    assert [delta][1..] == [];
    assert NQuadSpec(b, []) == Success(b);
  }

  /** The array of the given shape with every element equal to c. */
  function Filled(shape: seq<nat>, c: real): (a: NdArray)
    ensures WellFormed(a) && a.shape == shape
  {
    NdArray(shape, seq(Product(shape), _ => c))
  }

  /** Integrating a constant array c over a leading axis of n ≥ 1 samples gives the constant c·(n-1)·δ. */
  lemma IntegrateConstant(shape: seq<nat>, c: real, delta: real, integral: real)
    requires |shape| > 0 && shape[0] >= 1
    requires integral == c * (shape[0] as real - 1.0) * delta
    ensures IntegrateArray(Filled(shape, c), delta) == Success(Filled(shape[1..], integral))
  {
    var a := Filled(shape, c);
    var r := IntegrateArray(a, delta).value;
    var e := Filled(shape[1..], integral);
    forall k | 0 <= k < |r.data|
      ensures r.data[k] == e.data[k]
    {
      FiberOfFilled(shape, c, k);
      TrapezoidConstant(Fiber(a, k), c, delta, integral);
    }
    assert r.data == e.data;
  }

  /** Every fiber of a constant array is constant. */
  lemma FiberOfFilled(shape: seq<nat>, c: real, k: nat)
    requires |shape| > 0 && k < Product(shape[1..])
    ensures forall i :: 0 <= i < shape[0] ==> Fiber(Filled(shape, c), k)[i] == c
  {
    var m := Product(shape[1..]);
    forall i | 0 <= i < shape[0]
      ensures Fiber(Filled(shape, c), k)[i] == c
    {
      OffsetInRange(i, k, shape[0], m);
    }
  }

  /** The measure Π (shape[k] - 1)·deltas[k] of the box spanned by the first |deltas| axes. */
  function BoxVolume(shape: seq<nat>, deltas: seq<real>): real
    requires |deltas| <= |shape|
    decreases |deltas|
  {
    if |deltas| == 0 then 1.0 else (shape[0] as real - 1.0) * deltas[0] * BoxVolume(shape[1..], deltas[1..])
  }

  /** (c·s·d)·v == c·(s·d·v). */
  lemma Regroup(c: real, s: real, d: real, v: real, csd: real, sdv: real)
    requires csd == c * s * d && sdv == s * d * v
    ensures csd * v == c * sdv
  {
  }

  /** nquad of a constant array c is c times the box measure, over the axes it integrates. */
  lemma {:induction false} NQuadConstant(shape: seq<nat>, c: real, deltas: seq<real>, total: real)
    requires |deltas| <= |shape| && forall k :: 0 <= k < |deltas| ==> shape[k] >= 1
    requires total == c * BoxVolume(shape, deltas)
    ensures NQuadSpec(Filled(shape, c), deltas) == Success(Filled(shape[|deltas|..], total))
    decreases |deltas|
  {
    if |deltas| > 0 {
      var c1 := c * (shape[0] as real - 1.0) * deltas[0];
      IntegrateConstant(shape, c, deltas[0], c1);
      var step := IntegrateArray(Filled(shape, c), deltas[0]);
      assert NQuadSpec(Filled(shape, c), deltas) == NQuadSpec(step.value, deltas[1..]);
      var v := BoxVolume(shape[1..], deltas[1..]);
      Regroup(c, shape[0] as real - 1.0, deltas[0], v, c1, BoxVolume(shape, deltas));
      NQuadConstant(shape[1..], c1, deltas[1..], total);
      assert shape[1..][|deltas| - 1..] == shape[|deltas|..];
    } else {
      assert shape[0..] == shape;
    }
  }
}
