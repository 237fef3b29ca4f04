/**
 * The data side of the 1-D and 2-D viewers (QSim/Render.py): turning a
 * sampled curve into line segments, choosing which part of ψ is drawn,
 * validating colours, and the viewer fields that the setters, the key
 * handler and `attachSimulation` update. Everything drawn by OpenGL is
 * outside the model; a vertex list is represented by the data handed to it.
 */
module Render {
  import opened Results
  import opened ComplexNumbers
  import Wavefunction

  // ---------------------------------------------------------------------
  // Render modes
  // ---------------------------------------------------------------------

  /** The `RenderMode` enum: which real quantity of ψ the 1-D viewer draws. */
  datatype RenderMode = SquareModulus | RealPart | ImaginaryPart

  /** The string value each enum member carries. */
  function ModeValue(m: RenderMode): string {
    match m
    case SquareModulus => "Square Modulus"
    case RealPart => "Real Part"
    case ImaginaryPart => "Imaginary Part"
  }

  /** The argument of `setRenderMode`: an enum member or its string value. */
  datatype ModeArg = Member(mode: RenderMode) | Value(text: string)

  /** `RenderMode(mode)`: a member is returned as is, a value is looked up, anything else is a ValueError. */
  function CoerceRenderMode(arg: ModeArg): (r: Result<RenderMode>)
    ensures arg.Member? ==> r == Success(arg.mode)
    ensures arg.Value? && r.Success? ==> ModeValue(r.value) == arg.text
    ensures r.Failure? <==> arg.Value? && forall m: RenderMode :: ModeValue(m) != arg.text
    ensures r.Failure? ==> r.error == ValueError
  {
    match arg
    case Member(m) => Success(m)
    case Value(s) =>
      if s == "Square Modulus" then Success(SquareModulus)
      else if s == "Real Part" then Success(RealPart)
      else if s == "Imaginary Part" then Success(ImaginaryPart)
      else Failure(ValueError)
  }

  /** Looking a member up by its own value gives the member back. */
  lemma CoerceValueRoundTrip(m: RenderMode)
    ensures CoerceRenderMode(Value(ModeValue(m))) == Success(m)
  {
    match m
    case SquareModulus =>
    case RealPart =>
    case ImaginaryPart =>
  }

  /**
   * `applyRenderMode`: the real array drawn for ψ. The square modulus is the
   * real part of conj(ψ)·ψ, as the source computes it.
   */
  function RenderValues(mode: RenderMode, psi: seq<Complex>): (r: seq<real>)
    ensures |r| == |psi|
  {
    match mode
    case SquareModulus => Wavefunction.RealParts(Wavefunction.ConjMul(psi, psi))
    case RealPart => Wavefunction.RealParts(psi)
    case ImaginaryPart => Wavefunction.ImagParts(psi)
  }

  /** The square-modulus view holds re² + im² of every sample, never negative. */
  lemma SquareModulusValues(psi: seq<Complex>)
    ensures forall i :: 0 <= i < |psi| ==>
      RenderValues(SquareModulus, psi)[i] == psi[i].re * psi[i].re + psi[i].im * psi[i].im
    ensures forall i :: 0 <= i < |psi| ==> RenderValues(SquareModulus, psi)[i] >= 0.0
  {
    forall i | 0 <= i < |psi|
      ensures RenderValues(SquareModulus, psi)[i] == ModulusSquared(psi[i])
    {
      ConjMulSelf(psi[i]);
    }
  }

  /** The real-part and imaginary-part views together give ψ back. */
  lemma PartsRecoverState(psi: seq<Complex>)
    ensures forall i :: 0 <= i < |psi| ==>
      Complex(RenderValues(RealPart, psi)[i], RenderValues(ImaginaryPart, psi)[i]) == psi[i]
  {
  }

  /** Sum of a real array. */
  function SumReals(s: seq<real>): real
    decreases |s|
  {
    if |s| == 0 then 0.0 else SumReals(s[..|s| - 1]) + s[|s| - 1]
  }

  /** Summing real parts is taking the real part of the complex sum. */
  lemma {:induction false} SumRealsOfRealParts(s: seq<Complex>)
    ensures SumReals(Wavefunction.RealParts(s)) == Wavefunction.Sum(s).re
    decreases |s|
  {
    if |s| > 0 {
      assert Wavefunction.RealParts(s)[..|s| - 1] == Wavefunction.RealParts(s[..|s| - 1]);
      SumRealsOfRealParts(s[..|s| - 1]);
    }
  }

  /** For a discrete state the drawn square moduli add up to ⟨ψ|ψ⟩. */
  lemma DensityTotal(psi: seq<Complex>, labels: seq<string>)
    ensures SumReals(RenderValues(SquareModulus, psi))
         == Wavefunction.Inner(Wavefunction.DiscreteBasis(labels), psi, psi).re
  {
    SumRealsOfRealParts(Wavefunction.ConjMul(psi, psi));
  }

  /** The real samples as complex numbers with zero imaginary part. */
  function Lift(s: seq<real>): (r: seq<Complex>)
    ensures |r| == |s|
  {
    seq(|s|, i requires 0 <= i < |s| => FromReal(s[i]))
  }

  /**
   * For a continuous state the trapezoid area under the drawn square-modulus
   * curve, on the state's own grid, is ⟨ψ|ψ⟩.
   */
  lemma DensityArea(psi: seq<Complex>, x: seq<real>)
    requires |psi| == |x|
    ensures Wavefunction.Trapezoid(Lift(RenderValues(SquareModulus, psi)), x)
         == Wavefunction.Inner(Wavefunction.ContinuousBasis(x), psi, psi)
  {
    var p := Wavefunction.ConjMul(psi, psi);
    forall i | 0 <= i < |psi|
      ensures Lift(RenderValues(SquareModulus, psi))[i] == p[i]
    {
      ConjMulSelf(psi[i]);
    }
    assert Lift(RenderValues(SquareModulus, psi)) == p;
  }

  // ---------------------------------------------------------------------
  // Line segments
  // ---------------------------------------------------------------------

  /** The points (x[i], y[i]) of a sampled curve. */
  function Zip(x: seq<real>, y: seq<real>): (r: seq<(real, real)>)
    requires |x| == |y|
    ensures |r| == |x|
  {
    seq(|x|, i requires 0 <= i < |x| => (x[i], y[i]))
  }

  /**
   * The rows of `_arraysToLines(x, y)` as a value: for each pair of
   * neighbouring points, its start point and then its end point.
   */
  function LineRows(x: seq<real>, y: seq<real>): (r: seq<(real, real)>)
    requires |x| == |y| >= 1
    ensures |r| == 2 * |x| - 2
    decreases |x|
  {
    var n := |x|;
    if n == 1 then []
    else LineRows(x[..n - 1], y[..n - 1]) + [(x[n - 2], y[n - 2]), (x[n - 1], y[n - 1])]
  }

  /** Row 2i is point i and row 2i + 1 is point i + 1. */
  lemma {:induction false} LineRowsSegments(x: seq<real>, y: seq<real>)
    requires |x| == |y| >= 1
    ensures forall i :: 0 <= i < |x| - 1 ==>
      LineRows(x, y)[2 * i] == (x[i], y[i]) && LineRows(x, y)[2 * i + 1] == (x[i + 1], y[i + 1])
    decreases |x|
  {
    var n := |x|;
    if n > 1 {
      LineRowsSegments(x[..n - 1], y[..n - 1]);
    }
  }

  /** Each segment starts where the previous one ended. */
  lemma SegmentsConnect(x: seq<real>, y: seq<real>)
    requires |x| == |y| >= 1
    ensures forall i :: 0 < i < |x| - 1 ==> LineRows(x, y)[2 * i] == LineRows(x, y)[2 * i - 1]
  {
    LineRowsSegments(x, y);
    forall i | 0 < i < |x| - 1
      ensures LineRows(x, y)[2 * i] == LineRows(x, y)[2 * (i - 1) + 1]
    {
    }
  }

  /** The vertices of a polyline drawn as GL_LINES pairs: the first start point, then every end point. */
  function Polyline(rows: seq<(real, real)>): (r: seq<(real, real)>)
    decreases |rows|
  {
    if |rows| < 2 then []
    else if |rows| < 4 then [rows[0], rows[1]]
    else Polyline(rows[..|rows| - 2]) + [rows[|rows| - 1]]
  }

  /** From two or more points, the segments give the sampled curve back exactly. */
  lemma {:induction false} LinesRoundTrip(x: seq<real>, y: seq<real>)
    requires |x| == |y| >= 2
    ensures Polyline(LineRows(x, y)) == Zip(x, y)
    decreases |x|
  {
    var n := |x|;
    var front := LineRows(x[..n - 1], y[..n - 1]);
    var rows := LineRows(x, y);
    assert rows[..|rows| - 2] == front;
    if n > 2 {
      LinesRoundTrip(x[..n - 1], y[..n - 1]);
      assert Zip(x, y) == Zip(x[..n - 1], y[..n - 1]) + [(x[n - 1], y[n - 1])];
    } else {
      assert Zip(x, y) == [(x[0], y[0]), (x[1], y[1])];
    }
  }

  /** A single point draws nothing: its segment list is empty. */
  lemma SinglePointNoLines(x: seq<real>, y: seq<real>)
    requires |x| == |y| == 1
    ensures LineRows(x, y) == []
  {
  }

  /** The rows of a two-column array. */
  function Rows(a: array2<real>): (r: seq<(real, real)>)
    requires a.Length1 == 2
    reads a
    ensures |r| == a.Length0
  {
    seq(a.Length0, k requires 0 <= k < a.Length0 reads a => (a[k, 0], a[k, 1]))
  }

  /** Rows laid out two per segment, in segment order, are the segment list of the points. */
  lemma {:induction false} RowsFromSegments(rows: seq<(real, real)>, x: seq<real>, y: seq<real>)
    requires |x| == |y| >= 1 && |rows| == 2 * |x| - 2
    requires forall i :: 0 <= i < |x| - 1 ==> rows[2 * i] == (x[i], y[i])
    requires forall i :: 1 <= i < |x| ==> rows[2 * i - 1] == (x[i], y[i])
    ensures rows == LineRows(x, y)
    decreases |x|
  {
    var n := |x|;
    if n > 1 {
      var front := rows[..2 * n - 4];
      assert rows[2 * (n - 2)] == (x[n - 2], y[n - 2]);
      assert rows[2 * (n - 1) - 1] == (x[n - 1], y[n - 1]);
      assert rows == front + [rows[2 * n - 4], rows[2 * n - 3]];
      RowsFromSegments(front, x[..n - 1], y[..n - 1]);
    }
  }

  /** A two-column array holding the points as segment start and end rows has the segment list as its rows. */
  lemma ArrayRows(a: array2<real>, x: seq<real>, y: seq<real>)
    requires |x| == |y| >= 1 && a.Length0 == 2 * |x| - 2 && a.Length1 == 2
    requires forall i :: 0 <= i < |x| - 1 ==> a[2 * i, 0] == x[i] && a[2 * i, 1] == y[i]
    requires forall i :: 1 <= i < |x| ==> a[2 * i - 1, 0] == x[i] && a[2 * i - 1, 1] == y[i]
    ensures Rows(a) == LineRows(x, y)
  {
    var rows := Rows(a);
    assert forall i :: 0 <= i < |x| - 1 ==> rows[2 * i] == (x[i], y[i]);
    assert forall i :: 1 <= i < |x| ==> rows[2 * i - 1] == (x[i], y[i]);
    RowsFromSegments(rows, x, y);
  }

  /** `lines[::2] = pts[:-1]`: the even rows receive the points 0..n−2; the odd rows keep their values. */
  method AssignStarts(lines: array2<real>, x: seq<real>, y: seq<real>)
    requires |x| == |y| >= 1 && lines.Length0 == 2 * |x| - 2 && lines.Length1 == 2
    modifies lines
    ensures forall i :: 0 <= i < |x| - 1 ==> lines[2 * i, 0] == x[i] && lines[2 * i, 1] == y[i]
    ensures forall k, c :: 0 <= k < lines.Length0 && 0 <= c < 2 && k % 2 == 1 ==> lines[k, c] == old(lines[k, c])
  {
    forall i | 0 <= i < |x| - 1 {
      lines[2 * i, 0] := x[i];
    }
    forall i | 0 <= i < |x| - 1 {
      lines[2 * i, 1] := y[i];
    }
  }

  /** `lines[1::2] = pts[1:]`: the odd rows receive the points 1..n−1; the even rows keep their values. */
  method AssignEnds(lines: array2<real>, x: seq<real>, y: seq<real>)
    requires |x| == |y| >= 1 && lines.Length0 == 2 * |x| - 2 && lines.Length1 == 2
    modifies lines
    ensures forall i :: 1 <= i < |x| ==> lines[2 * i - 1, 0] == x[i] && lines[2 * i - 1, 1] == y[i]
    ensures forall k, c :: 0 <= k < lines.Length0 && 0 <= c < 2 && k % 2 == 0 ==> lines[k, c] == old(lines[k, c])
  {
    forall i | 1 <= i < |x| {
      lines[2 * i - 1, 0] := x[i];
    }
    forall i | 1 <= i < |x| {
      lines[2 * i - 1, 1] := y[i];
    }
  }

  /**
   * `_arraysToLines`: a fresh (2n−2)×2 array whose even rows are the points
   * 0..n−2 and whose odd rows are the points 1..n−1. With no points the
   * negative array shape raises ValueError; arrays of different lengths
   * cannot be stacked into points and raise ValueError.
   */
  method ArraysToLines(x: seq<real>, y: seq<real>) returns (r: Result<array2<real>>)
    ensures r.Success? <==> 1 <= |x| && |x| == |y|
    ensures r.Failure? ==> r.error == ValueError
    ensures r.Success? ==> fresh(r.value) && r.value.Length0 == 2 * |x| - 2 && r.value.Length1 == 2
    ensures r.Success? ==> forall i :: 0 <= i < |x| - 1 ==> r.value[2 * i, 0] == x[i] && r.value[2 * i, 1] == y[i]
    ensures r.Success? ==> forall i :: 1 <= i < |x| ==> r.value[2 * i - 1, 0] == x[i] && r.value[2 * i - 1, 1] == y[i]
    ensures r.Success? ==> Rows(r.value) == LineRows(x, y)
  {
    if |x| == 0 || |x| != |y| {
      return Failure(ValueError);
    }
    var n := |x|;
    var lines := new real[2 * n - 2, 2]((_, _) => 0.0);
    AssignStarts(lines, x, y);
    AssignEnds(lines, x, y);
    ArrayRows(lines, x, y);
    return Success(lines);
  }

  /** `lines.flatten()` as a value: the rows laid out one after another. */
  function Flatten(rows: seq<(real, real)>): (r: seq<real>)
    ensures |r| == 2 * |rows|
    decreases |rows|
  {
    if |rows| == 0 then [] else Flatten(rows[..|rows| - 1]) + [rows[|rows| - 1].0, rows[|rows| - 1].1]
  }

  /** Reading the flat buffer back two numbers at a time. */
  function Pairs(s: seq<real>): (r: seq<(real, real)>)
    ensures |r| == |s| / 2
    decreases |s|
  {
    if |s| < 2 then [] else Pairs(s[..|s| - 2]) + [(s[|s| - 2], s[|s| - 1])]
  }

  /** Flattening loses nothing. */
  lemma {:induction false} FlattenRoundTrip(rows: seq<(real, real)>)
    ensures Pairs(Flatten(rows)) == rows
    decreases |rows|
  {
    if |rows| > 0 {
      var f := Flatten(rows);
      assert f[..|f| - 2] == Flatten(rows[..|rows| - 1]);
      FlattenRoundTrip(rows[..|rows| - 1]);
    }
  }

  // ---------------------------------------------------------------------
  // Colours
  // ---------------------------------------------------------------------

  /** `tuple(color)[:3]` and `color[:3]`: at most the first three entries. */
  function FirstThree(c: seq<int>): (r: seq<int>)
    ensures |r| == if |c| < 3 then |c| else 3
    ensures r <= c
  {
    if |c| <= 3 then c else c[..3]
  }

  /** Taking the first three twice is taking them once. */
  lemma FirstThreeIdempotent(c: seq<int>)
    ensures FirstThree(FirstThree(c)) == FirstThree(c)
  {
  }

  /** The colour argument after `np.array(color, dtype=int)`: its number of axes and, for one axis, its entries. */
  datatype ColorArg = ColorArg(ndim: nat, entries: seq<int>)

  /**
   * The checks `addCurve` and `addBox` make before drawing: a simulation must
   * be attached, the colour must be one-dimensional with at least three
   * entries, and only the first three are kept. `len` of a zero-dimensional
   * array raises TypeError.
   */
  function CheckColor(attached: bool, color: ColorArg): (r: Result<seq<int>>)
    ensures r.Success? <==> attached && color.ndim == 1 && |color.entries| >= 3
    ensures r.Success? ==> |r.value| == 3 && r.value == color.entries[..3]
    ensures !attached ==> r == Failure(ValueError)
    ensures attached && color.ndim > 1 ==> r == Failure(ValueError)
    ensures attached && color.ndim == 0 ==> r == Failure(TypeError)
    ensures attached && color.ndim == 1 && |color.entries| < 3 ==> r == Failure(ValueError)
  {
    if !attached then Failure(ValueError)
    else if color.ndim > 1 then Failure(ValueError)
    else if color.ndim == 0 then Failure(TypeError)
    else if |color.entries| < 3 then Failure(ValueError)
    else Success(FirstThree(color.entries))
  }

  /** An accepted colour passes the check again unchanged. */
  lemma CheckColorIdempotent(color: ColorArg)
    requires CheckColor(true, color).Success?
    ensures CheckColor(true, ColorArg(1, CheckColor(true, color).value)) == CheckColor(true, color)
  {
  }

  /** `np.tile(color, n)`: the colour repeated once per vertex. */
  function Tile(c: seq<int>, n: nat): (r: seq<int>)
    ensures |r| == |c| * n
    decreases n
  {
    if n == 0 then [] else Tile(c, n - 1) + c
  }

  /** Vertex v of a tiled colour buffer carries exactly the colour. */
  lemma {:induction false} TileVertex(c: seq<int>, n: nat, v: nat, j: nat)
    requires v < n && j < |c|
    ensures |c| * v + j < |Tile(c, n)|
    ensures Tile(c, n)[|c| * v + j] == c[j]
    decreases n
  {
    var front := Tile(c, n - 1);
    assert |front| == |c| * (n - 1) == |c| * n - |c|;
    if v < n - 1 {
      TileVertex(c, n - 1, v, j);
    } else {
      assert |c| * v == |front|;
    }
  }

  // ---------------------------------------------------------------------
  // Viewer state
  // ---------------------------------------------------------------------

  /** The viewport bounds (the `Extent` dataclass). */
  datatype Extent = Extent(xlo: real, xhi: real, ylo: real, yhi: real)

  /** `Extent(0.0, 1.0, 0.0, 5.0)`, the bounds a new viewer starts with. */
  const InitialExtent := Extent(0.0, 1.0, 0.0, 5.0)

  /** An optional bound: the new value when given, the old one otherwise. */
  function Override(arg: Option<real>, current: real): real {
    if arg.Some? then arg.value else current
  }

  /** `setExtent`: exactly the bounds that are given are replaced. */
  function UpdateExtent(e: Extent, xlo: Option<real>, xhi: Option<real>, ylo: Option<real>, yhi: Option<real>): (r: Extent)
    ensures xlo.None? ==> r.xlo == e.xlo
    ensures xhi.None? ==> r.xhi == e.xhi
    ensures ylo.None? ==> r.ylo == e.ylo
    ensures yhi.None? ==> r.yhi == e.yhi
    ensures xlo.Some? ==> r.xlo == xlo.value
    ensures xhi.Some? ==> r.xhi == xhi.value
    ensures ylo.Some? ==> r.ylo == ylo.value
    ensures yhi.Some? ==> r.yhi == yhi.value
  {
    Extent(Override(xlo, e.xlo), Override(xhi, e.xhi), Override(ylo, e.ylo), Override(yhi, e.yhi))
  }

  /** Repeating the same `setExtent` call changes nothing further. */
  lemma UpdateExtentIdempotent(e: Extent, xlo: Option<real>, xhi: Option<real>, ylo: Option<real>, yhi: Option<real>)
    ensures UpdateExtent(UpdateExtent(e, xlo, xhi, ylo, yhi), xlo, xhi, ylo, yhi)
         == UpdateExtent(e, xlo, xhi, ylo, yhi)
  {
  }

  /** A later call wins on the bounds it gives; the earlier call survives on the others. */
  lemma UpdateExtentCompose(e: Extent, a: Extent, b: Option<real>)
    ensures UpdateExtent(UpdateExtent(e, Some(a.xlo), Some(a.xhi), None, None), None, None, b, b)
         == Extent(a.xlo, a.xhi, Override(b, e.ylo), Override(b, e.yhi))
  {
  }

  /** The three flags the keyboard toggles. */
  datatype Flags = Flags(showFps: bool, showEnergy: bool, paused: bool)

  /** The keys `on_key_press` distinguishes. */
  datatype Key = KeyF | KeyE | KeySpace | KeyRight | OtherKey

  /** `on_key_press` on the flags: F, E and SPACE each flip one flag; other keys flip none. */
  function Press(f: Flags, k: Key): (r: Flags)
    ensures r.showFps == (f.showFps != (k == KeyF))
    ensures r.showEnergy == (f.showEnergy != (k == KeyE))
    ensures r.paused == (f.paused != (k == KeySpace))
  {
    match k
    case KeyF => f.(showFps := !f.showFps)
    case KeyE => f.(showEnergy := !f.showEnergy)
    case KeySpace => f.(paused := !f.paused)
    case _ => f
  }

  /** Pressing the same key twice restores every flag. */
  lemma PressTwice(f: Flags, k: Key)
    ensures Press(Press(f, k), k) == f
  {
  }

  /** Key presses commute: the flags depend only on how often each key was pressed. */
  lemma PressCommutes(f: Flags, k1: Key, k2: Key)
    ensures Press(Press(f, k1), k2) == Press(Press(f, k2), k1)
  {
  }

  /** What a handled key press did besides toggling. */
  datatype KeyAction = Toggled | StepRequested | Ignored

  /** The smallest sample (`np.min`). */
  function Min(s: seq<real>): (m: real)
    requires |s| > 0
    ensures m in s
    ensures forall i :: 0 <= i < |s| ==> m <= s[i]
    decreases |s|
  {
    if |s| == 1 then s[0]
    else
      var m := Min(s[..|s| - 1]);
      if s[|s| - 1] < m then s[|s| - 1] else m
  }

  /** The largest sample (`np.max`). */
  function Max(s: seq<real>): (m: real)
    requires |s| > 0
    ensures m in s
    ensures forall i :: 0 <= i < |s| ==> s[i] <= m
    decreases |s|
  {
    if |s| == 1 then s[0]
    else
      var m := Max(s[..|s| - 1]);
      if s[|s| - 1] > m then s[|s| - 1] else m
  }

  /** The simulation as the viewers use it: its dimension, one flattened coordinate array per axis, and ψ. */
  datatype Simulation = Simulation(dims: int, meshgrid: seq<seq<real>>, psi: seq<Complex>)

  /** The data handed to a GL vertex list: its vertex count, positions and colours. */
  datatype VertexList = VertexList(count: nat, position: seq<real>, color: seq<int>)

  /** A box added to the 2-D viewer, with its validated colour. */
  datatype Box = Box(x1: real, y1: real, x2: real, y2: real, color: seq<int>)

  /** `GLRender1D` or `GLRender2D`. */
  datatype ViewerKind = Viewer1D | Viewer2D

  /** The vertex list of the 1-D curve for a sampled curve and a colour. */
  function CurveVertices(x: seq<real>, y: seq<real>, color: seq<int>): (r: VertexList)
    requires |x| == |y| >= 1
    ensures r.count == 2 * |x| - 2 && |r.position| == 2 * r.count && |r.color| == |color| * r.count
  {
    VertexList(2 * |x| - 2, Flatten(LineRows(x, y)), Tile(color, 2 * |x| - 2))
  }

  /**
   * A viewer window (`GLRenderer` with the fields of `GLRender1D` and
   * `GLRender2D`; `kind` says which). The 1-D fields are the state colour,
   * the vertex list and `_vlist_length_old`; the 2-D fields are the boxes and
   * the colour range. `allocations` counts the vertex lists the 1-D viewer
   * has created for its state curve.
   */
  class Viewer {
    const kind: ViewerKind
    var extent: Extent
    var simulation: Option<Simulation>
    var showFps: bool
    var showEnergy: bool
    var paused: bool
    var renderMode: RenderMode
    var curves: seq<VertexList>
    var vlist: Option<VertexList>
    var vlistLengthOld: int
    var allocations: nat
    var color: seq<int>
    var boxes: seq<Box>
    var vmin: real
    var vmax: real

    /** The vertex list exists exactly after its length has been recorded, and has that length. */
    ghost predicate Valid()
      reads this
    {
      && (vlistLengthOld == -1 <==> vlist.None?)
      && (vlist.Some? ==> vlist.value.count == vlistLengthOld && allocations > 0)
      && vlistLengthOld >= -1
    }

    /** The toggled flags as one value. */
    function CurrentFlags(): Flags
      reads this
    {
      Flags(showFps, showEnergy, paused)
    }

    constructor (kind: ViewerKind)
      ensures this.kind == kind && Valid()
      ensures extent == InitialExtent && simulation == None
      ensures !showFps && !showEnergy && !paused && renderMode == SquareModulus
      ensures curves == [] && boxes == []
      ensures vlist == None && vlistLengthOld == -1 && allocations == 0
      ensures color == [255, 0, 0] && vmin == 0.0 && vmax == 2.0
    {
      this.kind := kind;
      extent := InitialExtent;
      simulation := None;
      showFps := false;
      showEnergy := false;
      paused := false;
      renderMode := SquareModulus;
      curves := [];
      vlist := None;
      vlistLengthOld := -1;
      allocations := 0;
      color := [255, 0, 0];
      boxes := [];
      vmin := 0.0;
      vmax := 2.0;
    }

    /** `on_key_press`: toggles a flag, or asks the attached simulation for one step. */
    method OnKeyPress(k: Key) returns (r: Result<KeyAction>)
      modifies this`showFps, this`showEnergy, this`paused
      ensures CurrentFlags() == Press(old(CurrentFlags()), k)
      ensures k in {KeyF, KeyE, KeySpace} ==> r == Success(Toggled)
      ensures k == KeyRight ==> r == (if simulation.Some? then Success(StepRequested) else Failure(AttributeError))
      ensures k == OtherKey ==> r == Success(Ignored)
    {
      match k
      case KeyF =>
        showFps := !showFps;
        r := Success(Toggled);
      case KeyE =>
        showEnergy := !showEnergy;
        r := Success(Toggled);
      case KeySpace =>
        paused := !paused;
        r := Success(Toggled);
      case KeyRight =>
        r := if simulation.Some? then Success(StepRequested) else Failure(AttributeError);
      case OtherKey =>
        r := Success(Ignored);
    }

    /** `setRenderMode`: the mode changes only when the argument names a mode. */
    method SetRenderMode(arg: ModeArg) returns (r: Outcome)
      modifies this`renderMode
      ensures r.Pass? <==> CoerceRenderMode(arg).Success?
      ensures r.Pass? ==> renderMode == CoerceRenderMode(arg).value
      ensures r.Fail? ==> r.error == ValueError && renderMode == old(renderMode)
    {
      var m := CoerceRenderMode(arg);
      if m.Failure? {
        return Fail(m.error);
      }
      renderMode := m.value;
      return Pass;
    }

    /** `setExtent`: replaces exactly the given bounds. */
    method SetExtent(xlo: Option<real>, xhi: Option<real>, ylo: Option<real>, yhi: Option<real>)
      modifies this`extent
      ensures extent == UpdateExtent(old(extent), xlo, xhi, ylo, yhi)
    {
      if xlo.Some? {
        extent := extent.(xlo := xlo.value);
      }
      if xhi.Some? {
        extent := extent.(xhi := xhi.value);
      }
      if ylo.Some? {
        extent := extent.(ylo := ylo.value);
      }
      if yhi.Some? {
        extent := extent.(yhi := yhi.value);
      }
    }

    /** `setColorRange` of the 2-D viewer: replaces exactly the given bounds. */
    method SetColorRange(low: Option<real>, high: Option<real>)
      requires kind == Viewer2D
      modifies this`vmin, this`vmax
      ensures vmin == Override(low, old(vmin)) && vmax == Override(high, old(vmax))
    {
      if low.Some? {
        vmin := low.value;
      }
      if high.Some? {
        vmax := high.value;
      }
    }

    /** `setStateColor` of the 1-D viewer: keeps at most the first three components. */
    method SetStateColor(c: seq<int>)
      requires kind == Viewer1D
      modifies this`color
      ensures color == FirstThree(c)
    {
      color := FirstThree(c);
    }

    /**
     * `applyVertexArray` of the 1-D viewer: draws the current render mode of
     * ψ over the first coordinate array. A new vertex list is made only when
     * the segment count differs from the recorded one.
     */
    method ApplyVertexArray(sim: Simulation) returns (r: Outcome)
      requires kind == Viewer1D && Valid()
      modifies this`vlist, this`vlistLengthOld, this`allocations
      ensures Valid()
      ensures |sim.meshgrid| == 0 ==> r == Fail(IndexError)
      ensures r.Pass? <==> |sim.meshgrid| > 0 && 1 <= |sim.meshgrid[0]| == |sim.psi|
      ensures r.Fail? ==> vlist == old(vlist) && vlistLengthOld == old(vlistLengthOld) && allocations == old(allocations)
      ensures r.Fail? && |sim.meshgrid| > 0 ==> r.error == ValueError
      ensures r.Pass? ==>
        var x := sim.meshgrid[0];
        var n := 2 * |x| - 2;
        && vlistLengthOld == n
        && allocations == old(allocations) + (if n == old(vlistLengthOld) then 0 else 1)
        && vlist == Some(CurveVertices(x, RenderValues(renderMode, sim.psi), color))
    {
      if |sim.meshgrid| == 0 {
        return Fail(IndexError);
      }
      var x := sim.meshgrid[0];
      var psi := RenderValues(renderMode, sim.psi);
      var lines := ArraysToLines(x, psi);
      if lines.Failure? {
        return Fail(lines.error);
      }
      var a := lines.value;
      var count := a.Length0;
      if count != vlistLengthOld {
        vlistLengthOld := count;
        vlist := Some(VertexList(count, [], []));
        allocations := allocations + 1;
      }
      var position := Flatten(Rows(a));
      vlist := Some(VertexList(count, position, Tile(color, count)));
      return Pass;
    }

    /**
     * `attachSimulation`: rejects a simulation of the wrong dimension before
     * changing anything; otherwise stores it, fits the x bounds (and, in 2-D,
     * the y bounds) to its coordinates, and in 1-D builds the state curve.
     */
    method AttachSimulation(sim: Simulation) returns (r: Outcome)
      requires Valid()
      modifies this`simulation, this`extent, this`vlist, this`vlistLengthOld, this`allocations
      ensures Valid()
      ensures sim.dims != (if kind == Viewer1D then 1 else 2) ==>
        && r == Fail(ValueError)
        && simulation == old(simulation) && extent == old(extent)
        && vlist == old(vlist) && vlistLengthOld == old(vlistLengthOld) && allocations == old(allocations)
      ensures sim.dims == (if kind == Viewer1D then 1 else 2) ==> simulation == Some(sim)
      ensures r.Pass? ==> |sim.meshgrid| >= sim.dims >= 1 && |sim.meshgrid[0]| > 0
      ensures r.Pass? ==>
        extent.xlo == Min(sim.meshgrid[0]) && extent.xhi == Max(sim.meshgrid[0])
      ensures r.Pass? && kind == Viewer1D ==>
        && |sim.meshgrid[0]| == |sim.psi|
        && extent.ylo == old(extent).ylo && extent.yhi == old(extent).yhi
        && vlist == Some(CurveVertices(sim.meshgrid[0], RenderValues(renderMode, sim.psi), color))
      ensures r.Pass? && kind == Viewer2D ==>
        && |sim.meshgrid[1]| > 0
        && extent.ylo == Min(sim.meshgrid[1]) && extent.yhi == Max(sim.meshgrid[1])
    {
      var expected := if kind == Viewer1D then 1 else 2;
      if sim.dims != expected {
        return Fail(ValueError);
      }
      simulation := Some(sim);
      if |sim.meshgrid| == 0 {
        return Fail(IndexError);
      }
      var x := sim.meshgrid[0];
      if |x| == 0 {
        return Fail(ValueError);
      }
      SetExtent(Some(Min(x)), Some(Max(x)), None, None);
      if kind == Viewer1D {
        r := ApplyVertexArray(sim);
      } else {
        if |sim.meshgrid| < 2 {
          return Fail(IndexError);
        }
        var y := sim.meshgrid[1];
        if |y| == 0 {
          return Fail(ValueError);
        }
        SetExtent(Some(Min(x)), Some(Max(x)), Some(Min(y)), Some(Max(y)));
        r := Pass;
      }
    }

    /**
     * `addCurve`: after the colour checks, draws `ys` (the values the curve's
     * function gives on the first coordinate array) as one more curve.
     */
    method AddCurve(ys: seq<real>, colorArg: ColorArg) returns (r: Outcome)
      requires kind == Viewer1D
      modifies this`curves
      ensures CheckColor(simulation.Some?, colorArg).Failure? ==>
        r == Fail(CheckColor(simulation.Some?, colorArg).error)
      ensures r.Pass? <==>
        && CheckColor(simulation.Some?, colorArg).Success?
        && |simulation.value.meshgrid| > 0 && 1 <= |simulation.value.meshgrid[0]| == |ys|
      ensures r.Pass? ==>
        curves == old(curves) + [CurveVertices(simulation.value.meshgrid[0], ys, CheckColor(true, colorArg).value)]
      ensures r.Fail? ==> curves == old(curves)
    {
      var checked := CheckColor(simulation.Some?, colorArg);
      if checked.Failure? {
        return Fail(checked.error);
      }
      var sim := simulation.value;
      if |sim.meshgrid| == 0 {
        return Fail(IndexError);
      }
      var x := sim.meshgrid[0];
      var lines := ArraysToLines(x, ys);
      if lines.Failure? {
        return Fail(lines.error);
      }
      var a := lines.value;
      var position := Flatten(Rows(a));
      curves := curves + [VertexList(a.Length0, position, Tile(checked.value, a.Length0))];
      return Pass;
    }

    /** `clearCurves`: no extra curves remain. */
    method ClearCurves()
      requires kind == Viewer1D
      modifies this`curves
      ensures curves == []
    {
      curves := [];
    }

    /** `addBox` of the 2-D viewer: after the colour checks, records one more box. */
    method AddBox(x1: real, y1: real, x2: real, y2: real, colorArg: ColorArg) returns (r: Outcome)
      requires kind == Viewer2D
      modifies this`boxes
      ensures r.Pass? <==> CheckColor(simulation.Some?, colorArg).Success?
      ensures r.Pass? ==> boxes == old(boxes) + [Box(x1, y1, x2, y2, CheckColor(true, colorArg).value)]
      ensures r.Fail? ==> r.error == CheckColor(simulation.Some?, colorArg).error && boxes == old(boxes)
    {
      var checked := CheckColor(simulation.Some?, colorArg);
      if checked.Failure? {
        return Fail(checked.error);
      }
      boxes := boxes + [Box(x1, y1, x2, y2, checked.value)];
      return Pass;
    }

    /** `clearBoxes`: no boxes remain. */
    method ClearBoxes()
      requires kind == Viewer2D
      modifies this`boxes
      ensures boxes == []
    {
      boxes := [];
    }
  }
}
