# QuantumSimulator core in Dafny

This project models the numerical and state-keeping core of the QSim package
(QuantumSimulator) and proves properties of it. It has three parts:

- **`Math`** (`math.dfy`, QSim/Math.py). The finite-difference Laplacians
  `laplacian1D`, `laplacian2D` and `laplacian3D` start from a zero array and
  fill its interior slices with the three-point stencil along each axis. The
  `laplacian` dispatch chooses between them by the number of spacings.
  `integrateArray` is the trapezoid sum along the leading axis, and `nquad`
  applies it once per spacing.
- **`Wavefunction`** (`wavefunction.dfy`, QSim/Wavefunction.py). A state is an
  amplitude array held against a basis:
  - a `DiscreteState` has a label per amplitude and takes the conjugate dot
    product;
  - a `ContinuousState` has a one-axis grid and integrates with the trapezoid
    rule over that grid;
  - both have `setState`, `normalize`, `copy`, scalar `*`, `+` and `@`, plus
    the module-level `integrateArray`/`nquad`.
- **`Render`** (`render.dfy`, QSim/Render.py). The data side of the 1-D and
  2-D viewers:
  - the line-segment builder `_arraysToLines` and the render modes;
  - the colour checks of `addCurve`/`addBox`;
  - the fields that the setters (`setExtent`, `setColorRange`,
    `setStateColor`, `setRenderMode`), `on_key_press`, `attachSimulation`
    and `applyVertexArray` update.

`Results` (`results.dfy`) holds the Python exceptions and the result types
that carry them. `ComplexNumbers` (`complex.dfy`) holds complex numbers as
pairs of exact reals.

Array elements are exact reals. The Laplacians and the quadrature of
QSim/Math.py are linear, so they act on the real and imaginary parts of a
`complex128` array independently; there they are modelled on real arrays.
Dafny has no real square root, so every normalising operation takes the root
as an argument `root`, with `root > 0` and `root * root` equal to the self
inner product. numpy slice assignments are `forall` statements on a fresh
array. The stateful parts are classes:

- `Wavefunction.State`: `basis` is a `const` holding the basis by value, and `amplitudes` is `_state`. The model has no `basis` accessor; the sharing that the source's accessor allows is listed under "Left out".
- `Render.Viewer`: the two viewer classes, distinguished by `kind`.

## Model

| member | source | states |
|---|---|---|
| Math.Laplacian1D | QSim/Math.py:11-15 | A new array as long as ψ. Both end entries are 0; every interior entry i is (ψ[i+1] − 2ψ[i] + ψ[i−1]) / Δ0². |
| Math.Laplacian2D | QSim/Math.py:18-23 | A new array of ψ's shape. Entry (i, j) is the axis-0 stencil when i is interior plus the axis-1 stencil when j is interior. Only the four corners are forced to 0, and edge rows keep their axis-1 term. |
| Math.AssignAxis0Pass2 | QSim/Math.py:21 | `result[1:-1] = …` on a zero array leaves exactly the axis-0 term in every cell. |
| Math.AddAxis1Pass2 | QSim/Math.py:22 | `result[:, 1:-1] += …` adds the axis-1 term to every cell and nothing else. |
| Math.Laplacian3D | QSim/Math.py:26-32 | A new array of ψ's shape. Each axis contributes its stencil exactly where that axis index is interior. |
| Math.AssignAxis0Pass3 | QSim/Math.py:29 | The first slice assignment leaves exactly the axis-0 term in every cell. |
| Math.AddAxis1Pass3 | QSim/Math.py:30 | The second slice update adds exactly the axis-1 term to every cell. |
| Math.AddAxis2Pass3 | QSim/Math.py:31 | The third slice update adds exactly the axis-2 term to every cell. |
| Math.Laplacian | QSim/Math.py:35-44 | One spacing on a 1-axis grid gives the laplacian1D array; two spacings on a 2-axis grid give the laplacian2D array. It returns neither in any other case, so laplacian3D is unreachable. |
| Math.StencilLinear | QSim/Math.py:14 | The stencil of a·p + b·q is a times the stencil of p plus b times the stencil of q. |
| Math.StencilShift | QSim/Math.py:14 | Adding a constant to all three samples leaves the stencil unchanged. |
| Math.Laplacian1DOfAffine | QSim/Math.py:14 | Samples of an affine function c + s·i have a Laplacian that is zero everywhere. |
| Math.SquareStep | QSim/Math.py:14 | The stencil of the samples (iΔ)² is exactly 2 at every i. |
| Math.ShiftedSquareStep | QSim/Math.py:14 | The same holds for (iΔ)² plus any constant. |
| Math.Laplacian1DOfSquare | QSim/Math.py:14 | ψ[i] = (iΔ)² gives exactly 2 at every interior index and 0 at both ends. |
| Math.Laplacian2DOfSquare | QSim/Math.py:21-22 | ψ[i][j] = (iΔ0)² + (jΔ1)² gives 2 for each interior axis index, i.e. 4 inside, 2 on non-corner edges, 0 at corners. |
| Math.Laplacian3DOfSquare | QSim/Math.py:29-31 | The three-axis quadratic gives 2 for each axis whose index is interior. |
| Math.Laplacian1DLinear | QSim/Math.py:14 | laplacian1D is linear: L(aψ + bφ) = a·Lψ + b·Lφ at every index. |
| Math.Laplacian2DLinear | QSim/Math.py:21-22 | laplacian2D is linear at every cell. |
| Math.Laplacian2DLinearAt | QSim/Math.py:21-22 | Linearity of laplacian2D at one cell, from the linearity of each axis term. |
| Math.Axis0Term2Linear | QSim/Math.py:21 | The axis-0 contribution is linear in ψ. |
| Math.Axis1Term2Linear | QSim/Math.py:22 | The axis-1 contribution is linear in ψ. |
| Math.Laplacian2DByAxes | QSim/Math.py:21-22 | Each laplacian2D cell is the 1-D Laplacian of its column plus the 1-D Laplacian of its row. |
| Math.TrapezoidConstant | QSim/Math.py:60 | A constant array c of n ≥ 1 samples integrates to c·(n−1)·Δ; a single sample integrates to 0. |
| Math.TrapezoidLinear | QSim/Math.py:60 | integrateArray is linear in the array. |
| Math.TrapezoidOfCombination | QSim/Math.py:60 | Linearity for any array that equals a·xs + b·ys element by element. |
| Math.TrapezoidAdditive | QSim/Math.py:60 | The sum of the integrals of two arrays is the integral of their sum. |
| Math.TrapezoidHomogeneous | QSim/Math.py:60 | Scaling the array by k scales the integral by k. |
| Math.IntegrateArray | QSim/Math.py:58-60 | It removes the leading axis and keeps the rest of the shape. The spacing defaults to 1. A 0-axis array is an IndexError. |
| Math.NQuad | QSim/Math.py:63-69 | The loop over the spacings, reassigning its accumulator, returns exactly integrateArray applied once per spacing, in order. The input is not modified. |
| Math.NQuadShape | QSim/Math.py:63-69 | nquad succeeds exactly when there are no more spacings than axes. It then drops one leading axis per spacing; otherwise it raises IndexError. |
| Math.NQuadOneAxis | QSim/Math.py:66-69 | With one spacing on a 1-axis array, nquad equals integrateArray. |
| Math.IntegrateConstant | QSim/Math.py:60 | Integrating a constant N-axis array along axis 0 gives the constant array c·(n0−1)·Δ of the remaining shape. |
| Math.NQuadConstant | QSim/Math.py:63-69 | nquad of a constant array is the constant times the product of (n_k−1)·Δ_k over the integrated axes. |
| Wavefunction.SumConj | QSim/Wavefunction.py:215 | The sum of conjugates is the conjugate of the sum. |
| Wavefunction.SumScale | QSim/Wavefunction.py:215 | Scaling every term by k scales the sum by k. |
| Wavefunction.SumRealNonNegative | QSim/Wavefunction.py:215 | Terms that are real and ≥ 0 have a sum that is real and ≥ 0. |
| Wavefunction.SumOnes | QSim/Wavefunction.py:172 | n ones sum to n. |
| Wavefunction.TrapezoidConj | QSim/Wavefunction.py:224-227 | The trapezoid integral of the conjugate is the conjugate of the integral. |
| Wavefunction.TrapezoidScale | QSim/Wavefunction.py:224-227 | The trapezoid integral is homogeneous. |
| Wavefunction.TrapezoidRealNonNegative | QSim/Wavefunction.py:224-227 | On a non-decreasing grid, real non-negative samples integrate to a real non-negative value. |
| Wavefunction.TrapezoidRealOf | QSim/Wavefunction.py:224-227 | Real samples integrate to a real value on any grid. |
| Wavefunction.TrapezoidOnes | QSim/Wavefunction.py:224-227 | Ones integrate to the span of the grid (last point minus first). |
| Wavefunction.TrapezoidUniform | QSim/Wavefunction.py:224-227 | On an evenly spaced grid the basis-driven integrateArray equals QSim/Math.py's integrateArray with Δ equal to the spacing, part by part. |
| Wavefunction.IntegrateArray | QSim/Wavefunction.py:224-227 | One axis of samples integrates to a scalar. A scalar has no axis to reduce (IndexError). |
| Wavefunction.NQuad | QSim/Wavefunction.py:230-235 | The loop over the bases returns exactly integrateArray applied once per basis. |
| Wavefunction.NQuadOneAxis | QSim/Wavefunction.py:230-235 | With one grid, nquad is the trapezoid integral over it. A second grid has no axis left to reduce (IndexError). |
| Wavefunction.Dims | QSim/Wavefunction.py:30-32 | A 1-axis continuous state has dims 1; a discrete state has one dimension per label. |
| Wavefunction.InnerSwap | QSim/Wavefunction.py:205-215 | Swapping the arguments of the inner product conjugates it, for both bases. |
| Wavefunction.InnerSelfReal | QSim/Wavefunction.py:205-215 | ⟨ψ\|ψ⟩ is real. It is ≥ 0 on a discrete basis and on a non-decreasing grid. |
| Wavefunction.InnerMultiplied | QSim/Wavefunction.py:67-75 | Multiplying both states by a number c multiplies the inner product by \|c\|². |
| Wavefunction.InnerDivided | QSim/Wavefunction.py:97-100 | Dividing both states by k divides the inner product by k². |
| Wavefunction.NormalizedIsUnit | QSim/Wavefunction.py:97-100 | After dividing by √⟨ψ\|ψ⟩ (which must be positive), the self inner product is exactly 1. |
| Wavefunction.InnerOnes | QSim/Wavefunction.py:169-172 | The all-ones state has self inner product n on n labels, and the span of the grid on a continuous basis. |
| Wavefunction.MatVecIdentity | QSim/Wavefunction.py:174-177 | Applying the identity matrix leaves the array unchanged. |
| Wavefunction.State.Discrete | QSim/Wavefunction.py:169-172 | A new discrete state holds one unnormalised 1 per label. |
| Wavefunction.State.Continuous | QSim/Wavefunction.py:111-114 | A new continuous state holds the all-ones array divided by √span, so its self inner product is 1. |
| Wavefunction.State.InnerProduct | QSim/Wavefunction.py:119-130 | It raises TypeError exactly when one state is continuous and the other discrete, in either order. A state's product with itself is real, and ≥ 0 when discrete. |
| Wavefunction.State.Normalize | QSim/Wavefunction.py:97-100 | `_state` is divided by √⟨ψ\|ψ⟩, after which ⟨ψ\|ψ⟩ = 1. |
| Wavefunction.State.SetState | QSim/Wavefunction.py:42-59 | A wrong shape raises ValueError and leaves `_state` unchanged. Otherwise `_state` becomes ψ, normalised to unit norm unless `normalize` is false (it defaults to true). |
| Wavefunction.State.Copy | QSim/Wavefunction.py:152-156 | A new object on the same basis holding the normalised amplitudes; the original is not modified. |
| Wavefunction.State.Times | QSim/Wavefunction.py:67-78 | A number gives a new state: the normalised copy times the number c, whose self inner product is \|c\|². A state gives the inner product, or its TypeError. Anything else is a TypeError. |
| Wavefunction.State.Plus | QSim/Wavefunction.py:80-89 | A new state holding the normalised sum with the other state's array, a bare array, or a bare number added to every amplitude. An array length mismatch raises ValueError. Neither operand changes. |
| Wavefunction.State.MatMul | QSim/Wavefunction.py:174-177 | A new discrete state holding M applied to the normalised copy. A shape mismatch raises ValueError. |
| Wavefunction.State.ToArray | QSim/Wavefunction.py:34-36 | A fresh array with the amplitudes; later writes to it cannot reach the state. |
| Render.CoerceRenderMode | QSim/Render.py:141-150 | `RenderMode(mode)` returns a member as is and looks a string value up. A string naming no mode raises ValueError. |
| Render.CoerceValueRoundTrip | QSim/Render.py:34-37 | Each mode's string value coerces back to that mode. |
| Render.RenderValues | QSim/Render.py:274-283 | `applyRenderMode` gives one value per sample in each of the three modes (`squareMod`, `real`, `imag`). SquareModulusValues, PartsRecoverState, DensityTotal and DensityArea state what the values are. |
| Render.SquareModulusValues | QSim/Render.py:276-277 | The square-modulus view holds re² + im² of each sample, never negative, and has one value per sample. |
| Render.PartsRecoverState | QSim/Render.py:279-283 | The real-part and imaginary-part views together give ψ back. |
| Render.DensityTotal | QSim/Render.py:276-277 | For a discrete state, the drawn square moduli add up to ⟨ψ\|ψ⟩. |
| Render.DensityArea | QSim/Render.py:276-277 | For a continuous state, the trapezoid area under the drawn square-modulus curve is ⟨ψ\|ψ⟩. |
| Render.ArraysToLines | QSim/Render.py:266-272 | n points give a new (2n−2)×2 array. Row 2i is point i for i < n−1, and row 2i−1 is point i for 1 ≤ i < n. No points, or x and y of different lengths, raise ValueError. |
| Render.AssignStarts | QSim/Render.py:270 | `lines[::2] = pts[:-1]` writes the even rows only. |
| Render.AssignEnds | QSim/Render.py:271 | `lines[1::2] = pts[1:]` writes the odd rows only. |
| Render.LineRowsSegments | QSim/Render.py:268-271 | Row 2i is (x[i], y[i]) and row 2i+1 is (x[i+1], y[i+1]) for 0 ≤ i < n−1. |
| Render.SegmentsConnect | QSim/Render.py:268-271 | Each segment starts where the previous one ended. |
| Render.LinesRoundTrip | QSim/Render.py:266-272 | From two or more points, the segment rows give the sampled curve back exactly. |
| Render.SinglePointNoLines | QSim/Render.py:268 | One point draws no segment. |
| Render.FlattenRoundTrip | QSim/Render.py:292 | `lines.flatten()` loses nothing: read back two numbers at a time, it gives the rows. |
| Render.Tile | QSim/Render.py:293 | `np.tile(color, n)` has n copies' worth of entries. |
| Render.TileVertex | QSim/Render.py:293 | Every vertex of a tiled colour buffer carries exactly the colour. |
| Render.FirstThree | QSim/Render.py:247 | `tuple(color)[:3]` is a prefix of the colour, of length min(3, len). |
| Render.FirstThreeIdempotent | QSim/Render.py:247 | Cutting a colour to three twice is cutting it once. |
| Render.CheckColor | QSim/Render.py:302-312 | These raise ValueError: no attached simulation; a colour with more than one axis; fewer than 3 entries. A 0-axis colour is a TypeError (`len`). Otherwise the first three entries are kept. |
| Render.CheckColorIdempotent | QSim/Render.py:307-312 | An accepted colour passes the check again unchanged. |
| Render.UpdateExtent | QSim/Render.py:162-169 | Exactly the bounds given as non-None are replaced; the others keep their value. |
| Render.UpdateExtentIdempotent | QSim/Render.py:152-172 | Repeating the same setExtent call changes nothing further. |
| Render.UpdateExtentCompose | QSim/Render.py:152-172 | A later call wins on the bounds it gives; the earlier call's bounds survive elsewhere. |
| Render.Press | QSim/Render.py:124-139 | F, E and SPACE each flip exactly their own flag (show_fps, show_energy, paused). RIGHT and other keys flip none. |
| Render.PressTwice | QSim/Render.py:124-135 | Pressing the same key twice restores all three flags. |
| Render.PressCommutes | QSim/Render.py:124-135 | The order of two key presses does not matter to the flags. |
| Render.Min | QSim/Render.py:191-192 | `np.min` of a non-empty array is one of its elements and no larger than any. |
| Render.Max | QSim/Render.py:191-192 | `np.max` of a non-empty array is one of its elements and no smaller than any. |
| Render.CurveVertices | QSim/Render.py:285-293 | A curve of n points has a vertex list of 2n−2 vertices, two position numbers and one colour per vertex. |
| Render.Viewer.constructor | QSim/Render.py:54-91 | A new viewer starts with these defaults: extent (0, 1, 0, 5); no simulation; all flags off; square-modulus mode; no curves or boxes; no vertex list and `_vlist_length_old` = −1; colour (255, 0, 0); colour range [0, 2]. |
| Render.Viewer.OnKeyPress | QSim/Render.py:124-139 | The flags become `Press` of the old flags, and no other field changes. RIGHT asks the attached simulation for a step; with none attached it is an AttributeError. |
| Render.Viewer.SetRenderMode | QSim/Render.py:141-150 | The mode changes only to a valid mode; an invalid value raises ValueError and leaves it unchanged. |
| Render.Viewer.SetExtent | QSim/Render.py:152-172 | The extent becomes `UpdateExtent` of the old extent; nothing else changes. |
| Render.Viewer.SetColorRange | QSim/Render.py:394-403 | vmin and vmax change exactly where given; nothing else changes. |
| Render.Viewer.SetStateColor | QSim/Render.py:246-247 | The colour becomes its first three components; nothing else changes. |
| Render.Viewer.ApplyVertexArray | QSim/Render.py:285-293 | Afterwards `_vlist_length_old` is the current segment count. A new vertex list is made only when that count changed. The list holds the flattened segments of the current render mode and the tiled colour. |
| Render.Viewer.AttachSimulation | QSim/Render.py:249-263 | A simulation of the wrong dimension (≠ 1 for the 1-D viewer, ≠ 2 for the 2-D viewer) raises ValueError before anything changes. Otherwise the simulation is stored and the x bounds are set to the min and max of its coordinates. The 2-D viewer also sets the y bounds; the 1-D viewer builds the state curve. |
| Render.Viewer.AddCurve | QSim/Render.py:295-326 | If the colour check fails, its error is raised and the curves are unchanged. Otherwise exactly one vertex list is appended: the segments of (x, func(x)) in the checked colour. |
| Render.Viewer.ClearCurves | QSim/Render.py:328-332 | On the 1-D viewer, no extra curves remain. |
| Render.Viewer.AddBox | QSim/Render.py:414-450 | If the colour check fails, its error is raised and the boxes are unchanged. Otherwise exactly one box is appended, with its corners and the checked colour. |
| Render.Viewer.ClearBoxes | QSim/Render.py:452-456 | No boxes remain. |

## Left out

- Floating point: `float` and `complex128` are exact reals. Rounding, NaN and infinity are not modelled.
- Square root: normalisation takes `root` with `root * root` equal to the self inner product, instead of computing `np.sqrt`. `root > 0` excludes two cases:
  - the zero state, which the source divides by zero;
  - a continuous state whose ⟨ψ\|ψ⟩ is negative, as on a decreasing or non-monotone grid. The source normalises such a state by an imaginary root and leaves ⟨ψ\|ψ⟩ = −1.
- Wavefunction.State.Continuous, Wavefunction.State.Normalize, Wavefunction.State.SetState, Wavefunction.State.Copy, Wavefunction.State.Times, Wavefunction.State.Plus, Wavefunction.NormalizedIsUnit: they do not cover a continuous state with ⟨ψ\|ψ⟩ < 0 (decreasing or non-monotone grid). For such a state the source divides by the imaginary root and keeps ⟨ψ\|ψ⟩ = −1; the model requires a positive root.
- Math arrays: the stencil and the trapezoid act on real arrays; a `complex128` array is its real and imaginary parts.
- Math.Laplacian: the scipy `laplace` and `np.gradient` branches (QSim/Math.py:47-55) are foreign numerics, so the model returns `Unmodelled`. The same result covers a grid whose rank differs from the number of spacings.
- `ContinuousState.laplacian` and `laplacian1D` (QSim/Wavefunction.py:132-150) are built on `np.gradient` and are not modelled.
- Continuous states with two or more axes are not modelled. For them, `copy` and the basis-driven `nquad` do not reproduce the basis or the spacing.
- `setFromFunc` (QSim/Wavefunction.py:61-65, 158-162) runs an arbitrary callable and is not modelled.
- `DiscreteState.print` is string formatting and is not modelled.
- numpy broadcasting of length-1 operands: mismatched lengths are a ValueError in the model. A bare number is covered: it is added to every amplitude.
- Wavefunction.State: the `basis` accessor (QSim/Wavefunction.py:27-28) is not modelled. It returns `self._basis.copy()`, which for a continuous state copies only the list from `np.meshgrid`. The grid arrays inside stay shared with the state, so writing into `state.basis[0]` changes that state's grid and every later inner product. The model's `const basis` cannot change and does not capture this aliasing.
- Wavefunction.State.Discrete: labels are one-axis only. The source also accepts a label array of any shape, giving `np.ones(labels.shape)` and `dims` equal to the length of the first axis; multi-axis label arrays are not modelled.
- Wavefunction.State.Plus: a bare number is added to every amplitude, but other broadcastable shapes (length-1 arrays, arrays of more axes) are a ValueError in the model.
- Wavefunction.State.MatMul requires a discrete basis, because only `DiscreteState` defines `__matmul__`.
- Wavefunction.State.Copy: for a continuous state it skips the constructor's normalisation of the ones array. `setState` overwrites that array straight away.
- QSim/Simulator.py is not part of this model. The viewers see a simulation as its `dims`, one flattened coordinate array per axis, and ψ.
- `on_draw`, labels, FPS timing, `on_resize`, `setOffset`, shaders, `start` and the projection matrix (`_updateProjectionMatrix`) are OpenGL/pyglet plumbing and are not modelled.
- Vertex lists are represented by the data handed to them (count, positions, colours). GPU allocation and `vlist.delete()` in the clear methods are not modelled.
- Render.Viewer.OnKeyPress: `simulation.step()` is a call into the simulation, so the model returns `StepRequested` instead of stepping.
- Render.Viewer.AttachSimulation: the 2-D viewer's `rebuildMesh` is not modelled. It covers Delaunay triangulation (scipy) and the `viridis` colours, including their own failures on degenerate meshes.
- Render.Viewer.AddBox: the Delaunay triangulation of the box is not modelled. The box is recorded by its corners and colour. The model therefore always appends the box. In the source, a degenerate box (x1 == x2 or y1 == y2) makes `Delaunay` raise at QSim/Render.py:441, and nothing is appended.
- The 2-D viewer's `applyVertexArray` (QSim/Render.py:405-412) only maps `squareMod` through `viridis`, whose module is not part of this model.
- Render.CheckColor: the `np.array(color, dtype=int)` conversion, such as truncating floats or rejecting non-numbers, is not modelled. The colour arrives as integers with its number of axes.
- Render.ArraysToLines: arrays of different lengths raise ValueError, which is the ragged-array error of numpy 1.24 and later.
- Render.Viewer: `GLRender1D` and `GLRender2D` are one class distinguished by `kind`. A method that exists on only one of them (setStateColor, addCurve and clearCurves on the 1-D viewer; setColorRange, addBox and clearBoxes on the 2-D viewer) requires that kind. The AttributeError from calling it on the other viewer is therefore not modelled. ApplyVertexArray requires the 1-D kind because the 2-D version is left out, as said below.
- Test.py, QSim/__main__.py, QSim/__init__.py and Icons/Compress.py are drivers, metadata and file I/O, and are not modelled.
