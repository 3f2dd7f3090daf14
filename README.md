# Heat equation solver, modelled in Dafny

This project models the solver core of a small simulator of the heat
equation, `∂T/∂t = D ∇²T`. The simulator handles a bar (1D) or a square
plate (2D) held at Dirichlet temperatures on its edges. One simulation:

- looks up the thermal diffusivity `D` of a material;
- reads the dimension and the edge temperatures;
- computes the time step `dt = duree / Nt`, the space step
  `dx = L / (Nx - 1)`, the ratio `r = D·dt/dx²` and the cell centres;
- picks the forward-Euler (explicit) scheme or the Crank–Nicolson (implicit)
  scheme;
- produces the series `Tfs` of `Nt` temperature fields;
- maps every temperature of the series to an RGB colour on a five-band
  palette.

The model follows the program's structure, one module per file:

- `Basics` holds the `Result` and `Option` types, with one error constructor
  per exception the program raises. It also holds a few facts of real
  arithmetic.
- `Materials` is the diffusivity table and its lookup.
- `LinearAlgebra` covers:
  - the zero-filled diagonal and tridiagonal matrix builders (methods over
    `array2`);
  - the matrix-vector product;
  - the external linear solve.
- `Fields` covers bars and plates, `linspace`, and the four edge conditions,
  each uniform or a linear gradient. It writes those edges as the source
  does, row 0, last row, column 0, then the bottom column, both on values
  and in place on an `array2`.
- `ExplicitScheme` covers the three-point and five-point stencils, the
  recursive specification of a run, and the imperative steppers proved equal
  to it. It also proves the edge and stability properties.
- `ImplicitScheme` covers:
  - the bar system with unit end rows;
  - the column and row sweeps of the plate scheme;
  - the runs;
  - the imperative steppers;
  - the proofs of the edge properties and of the Crank–Nicolson equation.
- `Palette` is the clamp, the normalisation and the five-band colour
  mapping.
- `ColourSeries` is `ObtenirCouleur`: the series extremes, then one colour
  per cell.
- `Interpolation` covers the bracket search (`bisect_left`) and the
  distance-weighted average used to sample a field between two centres.
- `HeatEquation` is the set-up of `EquationChaleur.__init__`. It covers the
  scheme selection, the series, the error order of a simulation, and the
  boundedness and edge properties lifted to a whole simulation. `Simulation`
  is the set-up as the source writes it; `StableSimulation` is the same
  set-up with the two findings below corrected.

Floating-point numbers are modelled as exact reals.

`np.linalg.solve` is a parameter `solve` of type `Solver`. All the model
knows about it is the ghost predicate `Sound(solve)`: any solution it
returns satisfies `A·x = b`. Its failure is the `SingularMatrix` error that
`resoudre_equation_matricielle` raises.

The answers typed at the prompts are the parameter `Answers`.

## Model

| member | source | states |
|---|---|---|
| Materials.DiffusivitiesPositive | utils.py:5-23 | every diffusivity in the table is positive |
| Materials.Lookup | ressim.py:61 | the lookup succeeds exactly for the names in the table, giving the table's value (positive); otherwise it is the KeyError `UnknownMaterial` |
| LinearAlgebra.TridiagonalSymmetric | utils.py:112-113 | the matrix is symmetric: the same `c2` is written above and below the diagonal |
| LinearAlgebra.DiagonalMatrix | utils.py:74-91 | a fresh n × n array with `value` on the diagonal and 0 everywhere else |
| LinearAlgebra.TridiagonalMatrix | utils.py:93-115 | a fresh n × n array with `c1` on the diagonal, `c2` on both neighbouring diagonals, 0 elsewhere |
| LinearAlgebra.TridiagonalSnapshot | utils.py:93-115 | the array built by `TridiagonalMatrix` holds exactly the value `Tridiagonal` |
| LinearAlgebra.SolveSystem | utils.py:117-135 | a returned solution satisfies A·x = b at the system's size; a failure is `SingularMatrix` |
| Fields.Linspace | ressim.py:130 | `linspace(a, b, n)` has n points, the first `a` and, for n ≥ 2, the last `b` |
| Fields.LinspaceBetween | ressim.py:130 | every point of a linspace lies between its two ends |
| Fields.ProfileEnds | ressim.py:130-133 | a two-element edge answer is imposed as a gradient from its first to its second value; a number is imposed uniformly |
| Fields.ProfileWithin | ressim.py:151-154 | every value an edge imposes lies between that edge's least and greatest value |
| Fields.ImposeEdgesHolds | ressim.py:151-154 | the four edge writes, bottom on the last column, establish the Dirichlet condition and keep the interior |
| Fields.SetRow | ressim.py:151 | `a[i, :] = v` changes row i to v and nothing else |
| Fields.SetColumn | ressim.py:153 | `a[:, j] = v` changes column j to v and nothing else |
| Fields.ImposeEdgesInPlace | ressim.py:151-154 | the four in-place writes, in the source's order, leave every cell equal to `EdgeCell` of its old value |
| Fields.NewBar | ressim.py:107-109 | the initial bar: `T` everywhere, then `Tg` at index 0 and `Td` at the last index |
| Fields.NewPlate | ressim.py:128-133 | the initial plate: `T` everywhere with the four edges written over it |
| ExplicitScheme.ExplicitBarRunPrefix | ressim.py:112-124 | the first m+1 bars of a run are the run of m steps |
| ExplicitScheme.ExplicitBarRunSteps | ressim.py:107-124 | bar 0 is the initial bar and bar k+1 is one explicit step from bar k |
| ExplicitScheme.ExplicitBarRunEdges | ressim.py:121-122 | every bar keeps `Tg` at index 0 and `Td` at the last index |
| ExplicitScheme.BarStencilWithin | ressim.py:119 | for 0 ≤ r ≤ 1/2 the three-point update stays within any range holding its inputs |
| ExplicitScheme.ExplicitBarStepWithin | ressim.py:116-122 | for 0 ≤ r ≤ 1/2 one step keeps a bar within a range that holds it and both ends |
| ExplicitScheme.ExplicitBarRunWithin | ressim.py:112-124 | for 0 ≤ r ≤ 1/2 no temperature of any bar leaves [min(T, Tg, Td), max(T, Tg, Td)] |
| ExplicitScheme.ExplicitBarUpdate | ressim.py:114-122 | one pass of the loop, on a fresh zero array, is the explicit step |
| ExplicitScheme.EulerExplicitBar | ressim.py:105-124 | `EulerExplicite` on a bar returns the explicit run of Nt − 1 steps |
| ExplicitScheme.ExplicitPlateRunPrefix | ressim.py:136-156 | the first m+1 plates of a run are the run of m steps |
| ExplicitScheme.ExplicitPlateRunStep | ressim.py:138-156 | plate k+1 is one explicit step from plate k |
| ExplicitScheme.ExplicitPlateRunSteps | ressim.py:128-156 | plate 0 is the initial plate and each plate is one step from the one before |
| ExplicitScheme.ExplicitPlateRunEdges | ressim.py:150-154 | every plate after the first holds its four edge profiles |
| ExplicitScheme.ExplicitInitialPlateColumns | ressim.py:133 | as written, the initial plate carries the bottom profile on column 1 and keeps `T` inside its last column |
| ExplicitScheme.ExplicitInitialPlateBreaksEdges | ressim.py:133 | as written, a 3 × 3 plate at 100 with cold edges starts with 100 in its bottom edge, breaking the Dirichlet condition |
| ExplicitScheme.ExplicitPlateRunHoldsEdges | ressim.py:150-154 | with the bottom on the last column from the start, every plate of the run holds its edges, the first included |
| ExplicitScheme.PlateStencilWithin | ressim.py:144-148 | for 0 ≤ r ≤ 1/4 the five-point update stays within any range holding the plate |
| ExplicitScheme.EdgeCellWithin | ressim.py:151-154 | every cell an edge write produces lies between the plate's floor and ceiling |
| ExplicitScheme.InitialPlateWithin | ressim.py:128-133 | the initial plate lies between `T` and the edge values |
| ExplicitScheme.ExplicitPlateStepWithin | ressim.py:140-154 | for 0 ≤ r ≤ 1/4 one step keeps a plate between its floor and ceiling |
| ExplicitScheme.ExplicitPlateRunWithin | ressim.py:136-156 | for 0 ≤ r ≤ 1/4 no temperature of any plate leaves the range of `T` and the edge values |
| ExplicitScheme.ExplicitPlateOvershoot | ressim.py:142-148 | with r = 2/5 a 3 × 3 plate at 100 with cold edges reaches −24 at its centre after two steps, below its floor 0 |
| ExplicitScheme.ExplicitPlateUpdate | ressim.py:138-154 | one pass of the loop, on a fresh zero array, is the explicit plate step |
| ExplicitScheme.EulerExplicitPlate | ressim.py:126-156 | `EulerExplicite` on a plate returns the explicit run of Nt − 1 steps |
| ImplicitScheme.BarSystemKeepsEnds | ressim.py:177-180 | the unit end rows make the product keep both end values |
| ImplicitScheme.BarSystemInterior | ressim.py:175-176 | inside, the product is the three-point combination of the row's two coefficients |
| ImplicitScheme.ImplicitBarStep | ressim.py:185-190 | one step solves A·x = M·T, then writes both ends; a failed solve is `SingularMatrix` |
| ImplicitScheme.ImplicitBarSolutionKeepsEnds | ressim.py:185-190 | a solution of A·x = M·p keeps p's end values |
| ImplicitScheme.ImplicitBarResetRedundant | ressim.py:189-190 | so the end writes after the solve change nothing when the ends already hold |
| ImplicitScheme.ImplicitBarStepEquation | ressim.py:175-187 | a step from a bar holding its ends satisfies the Crank–Nicolson equation at every interior cell |
| ImplicitScheme.ImplicitBarRun | ressim.py:169-190 | a successful run holds steps + 1 bars of n cells; a failure is `SingularMatrix` |
| ImplicitScheme.ImplicitBarRunPrefix | ressim.py:183-190 | a successful run extends every shorter run |
| ImplicitScheme.ImplicitBarRunFails | ressim.py:183-187 | once a solve fails, every longer run fails with `SingularMatrix` |
| ImplicitScheme.ImplicitBarSeriesExtend | ressim.py:183-190 | a successful step from the last bar extends a series |
| ImplicitScheme.ImplicitBarSeriesIsRun | ressim.py:183-190 | a series of steps + 1 bars is the successful run of that length |
| ImplicitScheme.ImplicitBarSeriesFails | ressim.py:183-190 | a series whose next step fails makes every longer run fail |
| ImplicitScheme.ImplicitBarRunIsSeries | ressim.py:183-190 | a successful run is a series: the initial bar, then one step at a time |
| ImplicitScheme.ImplicitBarRunEdges | ressim.py:189-190 | every bar of a successful run keeps `Tg` and `Td` at its ends |
| ImplicitScheme.ImplicitBarRunEquation | ressim.py:175-190 | consecutive bars of a successful run satisfy the Crank–Nicolson equation |
| ImplicitScheme.BarOverrideIsBarSystem | ressim.py:177-180 | overriding the four end entries of the tridiagonal matrix gives the bar system |
| ImplicitScheme.SetUnitEndRows | ressim.py:177-180 | the four assignments change exactly those four entries |
| ImplicitScheme.BarSystemMatrix | ressim.py:175-180 | the matrix built as the source builds A and M is `BarSystem` |
| ImplicitScheme.ImplicitBarUpdate | ressim.py:185-190 | one pass of the bar loop is the implicit step |
| ImplicitScheme.ImplicitBarLoop | ressim.py:182-190 | the time loop returns the implicit run of Nt − 1 steps, or its failure |
| ImplicitScheme.EulerImplicitBar | ressim.py:166-190 | `EulerImplicite` on a bar is the run under the Crank–Nicolson matrices (1 + r, −r/2) and (1 − r, r/2) |
| ImplicitScheme.SolveEach | ressim.py:211-213 | solving for each vector in turn: all the solutions, or `SingularMatrix` exactly when some solve fails |
| ImplicitScheme.ColumnSweep | ressim.py:209-213 | every column j of the result solves A·x = M·(column j of the plate) |
| ImplicitScheme.RowSweep | ressim.py:215-219 | every row i of the result solves A·x = M·(row i of the intermediate field) |
| ImplicitScheme.ImplicitPlateStep | ressim.py:207-228 | one step is the column sweep, the row sweep, then the edges; a failure is `SingularMatrix` |
| ImplicitScheme.ImplicitPlateRun | ressim.py:195-228 | a successful run holds steps + 1 square plates; a failure is `SingularMatrix` |
| ImplicitScheme.ImplicitPlateRunPrefix | ressim.py:206-228 | a successful run extends every shorter run |
| ImplicitScheme.ImplicitPlateRunFails | ressim.py:206-213 | once a sweep fails, every longer run fails with `SingularMatrix` |
| ImplicitScheme.ImplicitPlateRunStep | ressim.py:206-228 | plate k+1 of a successful run is one implicit step from plate k |
| ImplicitScheme.ImplicitPlateSeriesExtend | ressim.py:206-228 | a successful step from the last plate extends a series |
| ImplicitScheme.ImplicitPlateSeriesIsRun | ressim.py:206-228 | a series of steps + 1 plates is the successful run of that length |
| ImplicitScheme.ImplicitPlateSeriesFails | ressim.py:206-228 | a series whose next step fails makes every longer run fail |
| ImplicitScheme.ImplicitPlateStepEdges | ressim.py:221-225 | a successful step yields a plate holding its four edge profiles |
| ImplicitScheme.ImplicitPlateRunEdgesAt | ressim.py:195-228 | plate k of a successful run holds its four edge profiles |
| ImplicitScheme.ImplicitPlateRunEdges | ressim.py:195-228 | every plate of a successful run holds its edges, the initial one included |
| ImplicitScheme.SweepColumns | ressim.py:209-213 | the column loop, writing each solution into column j of `T_col`, is the column sweep |
| ImplicitScheme.SweepRows | ressim.py:215-219 | the row loop, writing each solution into row i of `T_ligne`, is the row sweep, and it fails exactly when the sweep fails |
| ImplicitScheme.ImplicitPlateUpdate | ressim.py:207-228 | one pass of the plate loop is the implicit plate step |
| ImplicitScheme.PlateSystemMatrix | ressim.py:203-204 | the sweep matrix built in an array is `Tridiagonal` |
| ImplicitScheme.ImplicitPlateLoop | ressim.py:206-228 | the time loop returns the implicit plate run of Nt − 1 steps, or its failure |
| ImplicitScheme.EulerImplicitPlate | ressim.py:193-228 | `EulerImplicite` on a plate is the run under the matrices (2 + 2r, −r) and (2 − 2r, r) |
| Palette.Clamp | utils.py:44 | `max(0, min(1, x))` is in [0, 1], is x inside it, 0 below and 1 above |
| Palette.Normalise | utils.py:43-44 | the normalised temperature is in [0, 1]: 0 at or below the minimum, 1 at or above the maximum, proportional in between; with equal extremes NaN and +inf clamp to 1 and −inf to 0 |
| Palette.TemperatureToColour | utils.py:25-72 | every colour is a valid RGB triple; the minimum is dark blue (0, 0, 0.5) and the maximum dark red (0.5, 0, 0) |
| Palette.BandIsInUnitCube | utils.py:51-70 | every band gives channels in [0, 1] on the clamped range |
| Palette.PaletteEnds | utils.py:51-70 | the palette runs from (0, 0, 0.5) to (0.5, 0, 0) |
| Palette.Breakpoints | utils.py:51-70 | the palette is continuous at 0.2, 0.4 and 0.6; at 0.8 green drops from 0.5 to 0 |
| Palette.MonotoneWithinBands | utils.py:28-32 | within each band the channels named by the palette move monotonically, in the direction each band's description gives |
| ColourSeries.MinOf | ressim.py:243 | `min(s)` is at most every element and is one of them |
| ColourSeries.MaxOf | ressim.py:244 | `max(s)` is at least every element and is one of them |
| ColourSeries.GridMin | ressim.py:243 | the least temperature of a bar series is at most every cell and is one of them |
| ColourSeries.GridMax | ressim.py:244 | the greatest temperature of a bar series is at least every cell and is one of them |
| ColourSeries.PlateSeriesMin | ressim.py:260 | the least temperature of a plate series is at most every cell and is one of them |
| ColourSeries.PlateSeriesMax | ressim.py:261 | the greatest temperature of a plate series is at least every cell and is one of them |
| ColourSeries.LineColours | ressim.py:251-254 | one colour per cell, each the palette colour of that cell |
| ColourSeries.GridColours | ressim.py:249-256 | one line of colours per line of temperatures |
| ColourSeries.ColourBars | ressim.py:247-256 | the loop over instants builds the colours of every bar |
| ColourSeries.ColourBarSeries | ressim.py:241-256 | the bar colours are taken against the extremes of the whole series |
| ColourSeries.ColourPlate | ressim.py:268-279 | the loop over rows builds the colours of one plate |
| ColourSeries.SeriesColours | ressim.py:264-279 | one plate of colours per plate of temperatures |
| ColourSeries.ColourPlates | ressim.py:264-279 | the loop over instants builds the colours of every plate |
| ColourSeries.ColourPlateSeries | ressim.py:258-279 | the plate colours are taken against the extremes of the whole series |
| ColourSeries.BarColoursInUnitCube | ressim.py:241-256 | every colour of a coloured bar series is a valid RGB triple |
| ColourSeries.PlateColoursInUnitCube | ressim.py:258-279 | every colour of a coloured plate series is a valid RGB triple |
| ColourSeries.BarColourExtremes | ressim.py:242-256 | a coldest cell is dark blue and a hottest dark red; a constant series is all dark red |
| ColourSeries.PlateColourExtremes | ressim.py:259-279 | a coldest cell is dark blue when the series is not constant, and some cell is dark red |
| Interpolation.BisectLeft | utils.py:150 | `bisect_left`: every element before the index is below v and every element from it on is not |
| Interpolation.FindBracket | utils.py:137-160 | `(None, 0)` exactly when v would be inserted first, `(len − 1, None)` exactly when last, and two indices exactly when s[0] < v ≤ s[len − 1], then consecutive and straddling v |
| Interpolation.Weights | utils.py:185-187 | inside the bracket the two weights are non-negative and sum to 1; at either end they select that sample |
| Interpolation.WeightedAverage | utils.py:163-190 | each rejection happens exactly on its condition, in the source's order, the index error on `y[index2]` included, and the result is `Ok` exactly when none applies; a result lies between the two samples and equals a sample at its coordinate |
| Interpolation.ConvexCombinationBetween | utils.py:190 | a convex combination of two values lies between them |
| Interpolation.WeightedAverageIsLerp | utils.py:163-190 | the weighted average is the straight line through the two samples |
| Interpolation.StraddlingBracketAccepted | utils.py:160 | every interior bracket the search returns is accepted by the weighted average |
| HeatEquation.ParseDimension | ressim.py:68-81 | "1D" and "2D" exactly are accepted; anything else is `InvalidDimension` |
| HeatEquation.ReadConditions | ressim.py:68-77 | a bar keeps its two ends, a plate its four edges |
| HeatEquation.CentresSpan | ressim.py:94 | the centres are dx apart and, shifted back by dx/2, run from −L/2 to L/2 |
| HeatEquation.CentresIncreasing | ressim.py:94 | for dx > 0 (L > 0, Nx ≥ 2) the centres are strictly increasing, hence sorted as the bracket search requires |
| HeatEquation.RatioNonnegative | ressim.py:86-91 | r = D·dt/dx² is non-negative for D > 0 and duree ≥ 0 |
| HeatEquation.Discretise | ressim.py:86-91 | dt·Nt = duree, dx·(Nx − 1) = L, r·dx² = D·dt and r ≥ 0 for D > 0, duree ≥ 0; a division by zero exactly when Nt = 0, Nx = 1 or L = 0 |
| HeatEquation.SelectScheme | ressim.py:97 | as written: explicit exactly when r < 1/2, in either dimension |
| HeatEquation.StableScheme | ressim.py:96-97 | the least costly stable scheme: explicit exactly when r < 1/2 for a bar and r < 1/4 for a plate |
| HeatEquation.SelectSchemeOvershoots | ressim.py:97 | the as-written selection hands r = 2/5 to the explicit plate scheme, which then leaves its bounds |
| HeatEquation.CopperDefaultsRatio | ressim.py:43-44 | with the default arguments copper gives r = 0.2847…, explicit as written but implicit for a stable plate |
| HeatEquation.StableSchemeBounded | ressim.py:96-97 | whenever the stable selection picks the explicit scheme and r ≥ 0, every field stays within its initial and edge values |
| HeatEquation.BarTemperatures | ressim.py:97 | nt bars of n cells, or `SingularMatrix` from the implicit scheme only |
| HeatEquation.PlateTemperatures | ressim.py:97 | nt square plates, or `SingularMatrix` from the implicit scheme only; the explicit series is the explicit run from the plate with its bottom on the given column |
| HeatEquation.Temperatures | ressim.py:97 | a series of the right shape, of bars exactly for bar conditions, or `SingularMatrix` from the implicit scheme only; the explicit plate starts with its bottom on the given column |
| HeatEquation.BarTemperaturesKeepEnds | ressim.py:97-124 | every bar of either scheme keeps `Tg` at index 0 and `Td` at the last index |
| HeatEquation.PlateTemperaturesHoldEdges | ressim.py:97-154 | every implicit plate holds its four edges; every explicit plate after the first does, and the first too when its bottom is on the last column |
| HeatEquation.TemperaturesHoldEdges | ressim.py:97 | every bar keeps its ends; every plate of the implicit scheme holds its four edges, and so does every explicit plate after the first, the first too when its bottom is on the last column |
| HeatEquation.TemperaturesBounded | ressim.py:96-97 | an explicit series stays within its initial and edge values: a bar for 0 ≤ r ≤ 1/2, a plate for 0 ≤ r ≤ 1/4 whatever its initial bottom column |
| HeatEquation.StableTemperaturesBounded | ressim.py:96-97 | whenever `StableScheme` picks the explicit scheme, the explicit series of bars or plates stays within its initial and edge values |
| HeatEquation.RunScheme | ressim.py:97-133 | the steppers called for `Tfs` return the series `Temperatures` describes, with the explicit plate's bottom first on column 1 |
| HeatEquation.SetUp | ressim.py:43-97 | a successful set-up, as written or corrected, has Nt ≥ 1, Nx ≥ 2 and a series of that shape |
| HeatEquation.Simulation | ressim.py:43-97 | `__init__` as written: a successful set-up has Nt ≥ 1, Nx ≥ 2, a series of that shape, and the explicit scheme exactly when r < 1/2 |
| HeatEquation.StableSimulation | ressim.py:96-97 | the corrected set-up: the same shape, and the scheme `StableScheme` picks |
| HeatEquation.SimulationErrors | ressim.py:58-97 | the errors in the source's order: unknown material, unknown dimension, division by zero, the empty grid, a singular system |
| HeatEquation.SetUpAttributes | ressim.py:58-97 | a successful set-up of either variant holds the table's diffusivity, the parsed dimension, the grid, the variant's scheme and series, speed and thickness |
| HeatEquation.SimulationSetUp | ressim.py:58-97 | a successful set-up as written holds the table's diffusivity, the parsed dimension, the grid, the scheme r < 1/2 selects, the series with the explicit plate's bottom first on column 1, speed and thickness |
| HeatEquation.StableSimulationSetUp | ressim.py:58-97 | a successful corrected set-up holds the table's diffusivity, the grid, the stable scheme and the series with the explicit plate's bottom on the last column |
| HeatEquation.SimulationHoldsEdges | ressim.py:97-154 | every bar keeps its ends; every plate holds its four edges, except plate 0 of the explicit scheme |
| HeatEquation.SimulationExplicitBounded | ressim.py:96-97 | an explicit simulation of non-negative duration stays within its initial and edge values: always for a bar, for a plate when r ≤ 1/4 |
| HeatEquation.StableSimulationHoldsEdges | ressim.py:97-154 | every field of the corrected set-up holds its Dirichlet conditions, the first included |
| HeatEquation.StableSimulationBounded | ressim.py:96-97 | an explicit field of the corrected set-up of non-negative duration stays within its initial and edge values, bar and plate |
| HeatEquation.CopperPlateDefaults | ressim.py:43-97 | a copper plate at the default arguments succeeds with the explicit scheme as written, and runs Crank–Nicolson in the corrected set-up |
| HeatEquation.CopperBarScenario | ressim.py:43-124 | copper, L = 50, Nx = 5, T = 20, ends 10 and 30, duree = 0.001, Nt = 10: dx = 12.5, explicit, first bar 10, 20, 20, 20, 30, ends kept |
| HeatEquation.Initialise | ressim.py:43-97 | `__init__` returns the as-written set-up `Simulation` describes |
| HeatEquation.SimulationColourable | ressim.py:233-244 | the series of a successful simulation is one the colouring accepts |
| HeatEquation.ObtainColours | ressim.py:233-281 | `ObtenirCouleur` colours every cell against the extremes of the whole series |

## Left out

- `CreerElement` and `Simuler` are not modelled: the VPython boxes, labels,
  graph, `rate` pacing and the animation are display only. The sampling
  `Simuler` uses to follow a point is modelled in `Interpolation` as the
  bracket search and the weighted average. The averaging of four such samples
  into one tracked temperature is not modelled.
- The `corps` attribute, the list of display boxes, is left out with
  `CreerElement`.
- The prompts are not modelled: the `input()` and `eval()` reading of the
  edge temperatures is replaced by the parameter `Answers`.
  - The model takes the answers as numbers. In 1D the source keeps the typed
    strings, and numpy converts them when they are written into the float
    array.
  - A non-numeric answer is not modelled.
  - A list answer is modelled as its two ends (`Gradient`). A list of other
    than two elements is not modelled.
- Floating point: every quantity is an exact real, so rounding, overflow and
  underflow are not modelled. Infinity and NaN are modelled only where an
  error-free division by zero reaches the palette (`Normalise` with equal
  extremes).
- `np.linalg.solve` is not modelled: it is the `Solver` parameter. The model
  does not say which matrices it rejects, only that a rejection is
  `SingularMatrix` and an answer solves the system.
- Negative `Nt` and `Nx` are not representable: both are `nat`.
- `EulerImplicitBar` and `EulerImplicitPlate` take their system matrices as
  values. `BarSystemMatrix` and `PlateSystemMatrix` prove separately that the
  source's in-place builders produce those values. This keeps each proof
  small.
- The corrected behaviour of both findings below is not what `Initialise`
  and `Simulation` run: they follow the source, with `SelectScheme` and the
  explicit plate's bottom first on column 1. `StableSimulation` is the same
  set-up with both corrections, and the lemmas named `StableSimulation…`
  are about it.
- `ObtenirCouleur` is a property of the object in the source. It is modelled
  as `ObtainColours` on the series.

## Findings

| source | as written | input that shows it | evidently intended | confidence | as-written member | corrected member |
|---|---|---|---|---|---|---|
| ressim.py:133 | the initial plate of the explicit scheme writes the bottom edge `Tb` into column 1, while every later step (ressim.py:154) and the implicit scheme (ressim.py:200) write it into the last column | Nx = 3, T = 100, every edge 0: plate 0 keeps 100 at cell (1, 2) of the bottom edge and overwrites the interior cell (1, 1) with 0 | write `Tb` into the last column, so that the first field satisfies the Dirichlet condition like every other | not executed | ExplicitScheme.ExplicitInitialPlateBreaksEdges | ExplicitScheme.ExplicitPlateRunHoldsEdges |
| ressim.py:97 | the explicit scheme is chosen whenever r < 1/2, in 2D as well, although the comment at ressim.py:96 asks for the least costly stable scheme and the five-point explicit scheme is only bounded for r ≤ 1/4 | Nx = 3, r = 2/5, T = 100, every edge 0: after two steps the centre is −24, below every initial and edge value; copper with the default arguments gives r ≈ 0.285 in 2D | choose the explicit scheme in 2D only for r < 1/4 | not executed | HeatEquation.SelectSchemeOvershoots | HeatEquation.StableSchemeBounded |
