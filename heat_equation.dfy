/**
  `EquationChaleur`: the set-up of one simulation (material lookup, dimension,
  time and space steps, the ratio r = D·dt/dx², the cell centres), the choice
  between the explicit and the Crank–Nicolson scheme, the series of
  temperature fields that scheme produces, and the colouring of that series.
*/
module HeatEquation {
  import opened Basics
  import opened Materials
  import opened LinearAlgebra
  import opened Fields
  import opened ExplicitScheme
  import opened ImplicitScheme
  import opened Palette
  import opened ColourSeries
  import Interpolation

  datatype Dimension = OneD | TwoD

  /** The `dimension` argument: only the spellings "1D" and "2D" are accepted. */
  function ParseDimension(s: string): (d: Result<Dimension>)
    ensures d == Ok(OneD) <==> s == "1D"
    ensures d == Ok(TwoD) <==> s == "2D"
    ensures d.Err? <==> s != "1D" && s != "2D"
    ensures d.Err? ==> d.error == InvalidDimension
  {
    if s == "1D" then Ok(OneD) else if s == "2D" then Ok(TwoD) else Err(InvalidDimension)
  }

  /** The answers typed at the prompts: the two bar ends for a bar, the four edges for a plate. */
  datatype Answers = Answers(left: real, right: real, edges: PlateEdges)

  /** The Dirichlet conditions kept by a simulation, as its dimension reads them. */
  datatype Conditions = BarEnds(left: real, right: real) | PlateSides(edges: PlateEdges)

  function ReadConditions(d: Dimension, answers: Answers): (c: Conditions)
    ensures d == OneD ==> c == BarEnds(answers.left, answers.right)
    ensures d == TwoD ==> c == PlateSides(answers.edges)
  {
    match d
    case OneD => BarEnds(answers.left, answers.right)
    case TwoD => PlateSides(answers.edges)
  }

  /** The display speed of the animation: 1000 for a bar, 10000 for a plate. */
  function Speed(d: Dimension): nat {
    if d == OneD then 1000 else 10000
  }

  /** The time step, the space step, their ratio and the cell centres. */
  datatype Grid = Grid(dt: real, dx: real, r: real, centres: seq<real>)

  /** `[-L/2 + i*dx + dx/2 for i in range(Nx)]`. */
  function Centres(l: real, dx: real, nx: nat): (c: seq<real>)
    ensures |c| == nx
  {
    seq(nx, i => -l / 2.0 + i as real * dx + dx / 2.0)
  }

  /**
    The centres are dx apart, and shifted back by dx/2 they run from -L/2 to
    L/2 when dx·(Nx-1) = L.
  */
  lemma CentresSpan(l: real, dx: real, nx: nat)
    requires nx >= 1
    ensures Centres(l, dx, nx)[0] - dx / 2.0 == -l / 2.0
    ensures forall i :: 0 <= i < nx - 1 ==> Centres(l, dx, nx)[i + 1] - Centres(l, dx, nx)[i] == dx
    ensures dx * (nx as real - 1.0) == l ==> Centres(l, dx, nx)[nx - 1] - dx / 2.0 == l / 2.0
  {
  }

  /** For a positive step the centres are strictly increasing, hence sorted as the bracket search requires. */
  lemma CentresIncreasing(l: real, dx: real, nx: nat)
    requires dx > 0.0
    ensures Interpolation.StrictlyIncreasing(Centres(l, dx, nx))
    ensures Interpolation.Sorted(Centres(l, dx, nx))
  {
    var c := Centres(l, dx, nx);
    forall i, j | 0 <= i < j < nx
      ensures c[i] < c[j]
    {
      ScaleStrictlyIncreasing(i as real, j as real, dx);
    }
  }

  lemma ScaleStrictlyIncreasing(a: real, b: real, dx: real)
    requires a < b && dx > 0.0
    ensures a * dx < b * dx
  {
    ProductPositive(b - a, dx);
    assert (b - a) * dx == b * dx - a * dx;
  }

  function Product(a: real, b: real): real {
    a * b
  }

  /** `x ** 2`. */
  function Square(x: real): real {
    Product(x, x)
  }

  lemma ProductPositive(a: real, b: real)
    requires (a > 0.0 && b > 0.0) || (a < 0.0 && b < 0.0)
    ensures Product(a, b) > 0.0
  {
    if a < 0.0 {
      assert a * b == (-a) * (-b);
    }
  }

  lemma SquarePositive(x: real)
    requires x != 0.0
    ensures Square(x) > 0.0
  {
    ProductPositive(x, x);
  }

  /** With a positive diffusivity and a non-negative duration the ratio r = D·(duree/Nt)/dx² is non-negative. */
  lemma RatioNonnegative(d: real, duree: real, nt: real, dx: real)
    requires nt > 0.0 && Square(dx) > 0.0
    ensures d > 0.0 && duree >= 0.0 ==> d * (duree / nt) / Square(dx) >= 0.0
  {
    if d > 0.0 && duree >= 0.0 {
      QuotientNonnegative(duree, nt);
      NonNegativeProduct(d, duree / nt);
      QuotientNonnegative(d * (duree / nt), Square(dx));
    }
  }

  /**
    `dt = duree / Nt`, `dx = L / (Nx - 1)`, `r = D * dt / dx ** 2`, in this
    order; each division by zero is the error the source raises.
  */
  function Discretise(d: real, l: real, duree: real, nt: nat, nx: nat): (g: Result<Grid>)
    ensures g.Err? <==> nt == 0 || nx == 1 || l == 0.0
    ensures g.Err? ==> g.error == DivisionByZero
    ensures g.Ok? ==> g.value.dt * nt as real == duree
    ensures g.Ok? ==> g.value.dx * (nx as real - 1.0) == l
    ensures g.Ok? ==> g.value.r * Square(g.value.dx) == d * g.value.dt
    ensures g.Ok? && d > 0.0 && duree >= 0.0 ==> g.value.r >= 0.0
    ensures g.Ok? ==> g.value.centres == Centres(l, g.value.dx, nx)
  {
    if nt == 0 then Err(DivisionByZero)
    else
      var dt := duree / nt as real;
      QuotientTimesDivisor(duree, nt as real);
      if nx == 1 then Err(DivisionByZero)
      else
        var dx := l / (nx as real - 1.0);
        if dx == 0.0 then Err(DivisionByZero)
        else
          QuotientTimesDivisor(l, nx as real - 1.0);
          SquarePositive(dx);
          QuotientTimesDivisor(d * dt, Square(dx));
          RatioNonnegative(d, duree, nt as real, dx);
          Ok(Grid(dt, dx, d * dt / Square(dx), Centres(l, dx, nx)))
  }

  datatype Scheme = Explicit | Implicit

  /** The selection as the source writes it: the explicit scheme whenever r < 1/2, whatever the dimension. */
  function SelectScheme(r: real): (s: Scheme)
    ensures s == Explicit <==> r < 0.5
  {
    if r < 0.5 then Explicit else Implicit
  }

  /**
    The least costly stable scheme: explicit only inside the range where it
    keeps every temperature between the initial and edge values, r < 1/2 for
    a bar and r < 1/4 for a plate.
  */
  function StableScheme(d: Dimension, r: real): (s: Scheme)
    ensures d == OneD ==> (s == Explicit <==> r < 0.5)
    ensures d == TwoD ==> (s == Explicit <==> r < 0.25)
  {
    if d == OneD then SelectScheme(r)
    else if r < 0.25 then Explicit else Implicit
  }

  /**
    As written, the selection hands a plate with r = 2/5 to the explicit
    scheme, although that plate leaves the range of its initial and edge
    values after two steps.
  */
  lemma SelectSchemeOvershoots()
    ensures SelectScheme(0.4) == Explicit
    ensures StableScheme(TwoD, 0.4) == Implicit
    ensures PlateFloor(100.0, ColdEdges) == 0.0
    ensures ExplicitPlateRun(3, 0.4, 100.0, ColdEdges, 1, 2)[2][1][1] < PlateFloor(100.0, ColdEdges)
  {
    ExplicitPlateOvershoot();
  }

  /** With the default arguments (L = 50, duree = 4, Nt = 1000, Nx = 40) copper gives r between 1/4 and 1/2. */
  lemma CopperDefaultsRatio()
    ensures Discretise(117.0, 50.0, 4.0, 1000, 40).Ok?
    ensures Discretise(117.0, 50.0, 4.0, 1000, 40).value.r == 711828.0 / 2500000.0
    ensures SelectScheme(Discretise(117.0, 50.0, 4.0, 1000, 40).value.r) == Explicit
    ensures StableScheme(TwoD, Discretise(117.0, 50.0, 4.0, 1000, 40).value.r) == Implicit
  {
    var g := Discretise(117.0, 50.0, 4.0, 1000, 40).value;
    assert g.dt == 0.004;
    assert g.dx == 50.0 / 39.0;
    assert Square(g.dx) == 2500.0 / 1521.0;
  }

  /**
    Whenever the stable selection picks the explicit scheme and r >= 0, no
    temperature of any step leaves the range of the initial value and the
    Dirichlet values, for a bar and for a plate.
  */
  lemma StableSchemeBounded(r: real, n: nat, t: real, left: real, right: real, e: PlateEdges, steps: nat)
    requires 0.0 <= r && n >= 2
    ensures StableScheme(OneD, r) == Explicit ==> forall k :: 0 <= k <= steps ==>
      Within(ExplicitBarRun(n, r, t, left, right, steps)[k], Min3(t, left, right), Max3(t, left, right))
    ensures StableScheme(TwoD, r) == Explicit ==> forall k: nat, c: nat :: k <= steps && c < n ==>
      PlateWithin(ExplicitPlateRun(n, r, t, e, c, steps)[k], PlateFloor(t, e), PlateCeiling(t, e))
  {
    if StableScheme(OneD, r) == Explicit {
      ExplicitBarRunWithin(n, r, t, left, right, steps);
    }
    if StableScheme(TwoD, r) == Explicit {
      forall k: nat, c: nat | k <= steps && c < n
        ensures PlateWithin(ExplicitPlateRun(n, r, t, e, c, steps)[k], PlateFloor(t, e), PlateCeiling(t, e))
      {
        ExplicitPlateRunWithin(n, r, t, e, c, steps);
      }
    }
  }

  /** `Tfs`: the series of bars or of plates. */
  datatype Series = Bars(bars: seq<Bar>) | Plates(plates: seq<Plate>)

  /** The series holds `nt` fields of `nx` cells (bars) or of `nx` × `nx` cells (plates). */
  predicate SeriesShape(s: Series, nt: nat, nx: nat) {
    match s
    case Bars(bars) => |bars| == nt && forall k :: 0 <= k < nt ==> |bars[k]| == nx
    case Plates(plates) => |plates| == nt && forall k :: 0 <= k < nt ==> IsSquare(plates[k], nx)
  }

  /** The bars of `EulerExplicite` or `EulerImplicite`: `nt` bars, or the singular-matrix error of a solve. */
  function BarTemperatures(solve: Solver, scheme: Scheme, n: nat, nt: nat, r: real, t: real, left: real, right: real)
    : (s: Result<seq<Bar>>)
    requires Sound(solve) && n >= 2 && nt >= 1
    ensures s.Ok? ==> |s.value| == nt && forall k :: 0 <= k < nt ==> |s.value[k]| == n
    ensures s.Err? ==> scheme == Implicit && s.error == SingularMatrix
  {
    var steps := nt - 1;
    match scheme
    case Explicit => Ok(ExplicitBarRun(n, r, t, left, right, steps))
    case Implicit =>
      var a, m := BarSystem(n, 1.0 + r, -r / 2.0), BarSystem(n, 1.0 - r, r / 2.0);
      var s := ImplicitBarRun(solve, a, m, n, t, left, right, steps);
      assert s.Ok? ==> forall k :: 0 <= k <= steps ==> |s.value[k]| == n;
      s
  }

  /**
    The plates of `EulerExplicite` or `EulerImplicite`.  The explicit plate
    starts with the bottom on column `col` (the source writes column 1); the
    implicit one starts with it on the last column.
  */
  function PlateTemperatures(solve: Solver, scheme: Scheme, n: nat, nt: nat, r: real, t: real, e: PlateEdges, col: nat)
    : (s: Result<seq<Plate>>)
    requires Sound(solve) && n >= 2 && nt >= 1 && col < n
    ensures s.Ok? ==> |s.value| == nt && forall k :: 0 <= k < nt ==> IsSquare(s.value[k], n)
    ensures s.Err? ==> scheme == Implicit && s.error == SingularMatrix
    ensures scheme == Explicit ==> s == Ok(ExplicitPlateRun(n, r, t, e, col, nt - 1))
  {
    var steps := nt - 1;
    match scheme
    case Explicit => Ok(ExplicitPlateRun(n, r, t, e, col, steps))
    case Implicit =>
      var a, m := Tridiagonal(n, 2.0 + 2.0 * r, -r), Tridiagonal(n, 2.0 - 2.0 * r, r);
      var s := ImplicitPlateRun(solve, a, m, n, t, e, steps);
      assert s.Ok? ==> forall k :: 0 <= k <= steps ==> IsSquare(s.value[k], n);
      s
  }

  /** The series of the chosen scheme for the chosen dimension; `col` is the explicit plate's initial bottom column. */
  function Temperatures(solve: Solver, scheme: Scheme, n: nat, nt: nat, r: real, t: real, c: Conditions, col: nat)
    : (s: Result<Series>)
    requires Sound(solve) && n >= 2 && nt >= 1 && col < n
    ensures s.Ok? ==> SeriesShape(s.value, nt, n) && (s.value.Bars? <==> c.BarEnds?)
    ensures s.Err? ==> scheme == Implicit && s.error == SingularMatrix
  {
    match c
    case BarEnds(left, right) =>
      var bars := BarTemperatures(solve, scheme, n, nt, r, t, left, right);
      if bars.Ok? then Ok(Bars(bars.value)) else Err(bars.error)
    case PlateSides(e) =>
      var plates := PlateTemperatures(solve, scheme, n, nt, r, t, e, col);
      if plates.Ok? then Ok(Plates(plates.value)) else Err(plates.error)
  }

  /** Every bar of either scheme keeps its two end values. */
  lemma BarTemperaturesKeepEnds(solve: Solver, scheme: Scheme, n: nat, nt: nat, r: real, t: real, left: real, right: real)
    requires Sound(solve) && n >= 2 && nt >= 1 && BarTemperatures(solve, scheme, n, nt, r, t, left, right).Ok?
    ensures forall k :: 0 <= k < nt ==>
      BarTemperatures(solve, scheme, n, nt, r, t, left, right).value[k][0] == left &&
      BarTemperatures(solve, scheme, n, nt, r, t, left, right).value[k][n - 1] == right
  {
    match scheme
    case Explicit =>
      ExplicitBarRunEdges(n, r, t, left, right, nt - 1);
    case Implicit =>
      ImplicitBarRunEdges(solve, BarSystem(n, 1.0 + r, -r / 2.0), BarSystem(n, 1.0 - r, r / 2.0), n, t, left, right, nt - 1);
  }

  /**
    Every plate of the implicit scheme holds its four edges; so does every
    explicit plate after the first, and the first too when its bottom was
    written on the last column.
  */
  lemma PlateTemperaturesHoldEdges(solve: Solver, scheme: Scheme, n: nat, nt: nat, r: real, t: real, e: PlateEdges, col: nat)
    requires Sound(solve) && n >= 2 && nt >= 1 && col < n && PlateTemperatures(solve, scheme, n, nt, r, t, e, col).Ok?
    ensures forall k :: 0 <= k < nt && (scheme == Implicit || col == n - 1 || 1 <= k) ==>
      HoldsEdges(PlateTemperatures(solve, scheme, n, nt, r, t, e, col).value[k], e, n)
  {
    match scheme
    case Explicit =>
      var run := ExplicitPlateRun(n, r, t, e, col, nt - 1);
      assert PlateTemperatures(solve, scheme, n, nt, r, t, e, col).value == run;
      ExplicitPlateRunEdges(n, r, t, e, col, nt - 1);
      if col == n - 1 {
        ExplicitPlateRunHoldsEdges(n, r, t, e, col, nt - 1);
      }
      forall k | 0 <= k < nt && (col == n - 1 || 1 <= k)
        ensures HoldsEdges(run[k], e, n)
      {
      }
    case Implicit =>
      var a, m := Tridiagonal(n, 2.0 + 2.0 * r, -r), Tridiagonal(n, 2.0 - 2.0 * r, r);
      assert PlateTemperatures(solve, scheme, n, nt, r, t, e, col) == ImplicitPlateRun(solve, a, m, n, t, e, nt - 1);
      ImplicitPlateRunEdges(solve, a, m, n, t, e, nt - 1);
  }

  /**
    Every bar keeps its two end values.  Every plate holds its four edges,
    except the first plate of the explicit scheme when its bottom was not
    written on the last column.
  */
  lemma TemperaturesHoldEdges(solve: Solver, scheme: Scheme, n: nat, nt: nat, r: real, t: real, c: Conditions, col: nat)
    requires Sound(solve) && n >= 2 && nt >= 1 && col < n && Temperatures(solve, scheme, n, nt, r, t, c, col).Ok?
    ensures c.BarEnds? ==> forall k :: 0 <= k < nt ==>
      Temperatures(solve, scheme, n, nt, r, t, c, col).value.bars[k][0] == c.left &&
      Temperatures(solve, scheme, n, nt, r, t, c, col).value.bars[k][n - 1] == c.right
    ensures c.PlateSides? ==> forall k :: 0 <= k < nt && (scheme == Implicit || col == n - 1 || 1 <= k) ==>
      HoldsEdges(Temperatures(solve, scheme, n, nt, r, t, c, col).value.plates[k], c.edges, n)
  {
    match c
    case BarEnds(left, right) =>
      BarTemperaturesKeepEnds(solve, scheme, n, nt, r, t, left, right);
    case PlateSides(e) =>
      PlateTemperaturesHoldEdges(solve, scheme, n, nt, r, t, e, col);
  }

  /**
    The explicit series stays within the initial value and the boundary
    values: a bar for 0 <= r <= 1/2, a plate for 0 <= r <= 1/4, whatever the
    plate's initial bottom column.
  */
  lemma TemperaturesBounded(solve: Solver, n: nat, nt: nat, r: real, t: real, c: Conditions, col: nat)
    requires Sound(solve) && n >= 2 && nt >= 1 && col < n && 0.0 <= r
    ensures var s := Temperatures(solve, Explicit, n, nt, r, t, c, col);
      c.BarEnds? && r <= 0.5 ==> forall k :: 0 <= k < nt ==>
        Within(s.value.bars[k], Min3(t, c.left, c.right), Max3(t, c.left, c.right))
    ensures var s := Temperatures(solve, Explicit, n, nt, r, t, c, col);
      c.PlateSides? && r <= 0.25 ==> forall k :: 0 <= k < nt ==>
        PlateWithin(s.value.plates[k], PlateFloor(t, c.edges), PlateCeiling(t, c.edges))
  {
    match c
    case BarEnds(left, right) =>
      if r <= 0.5 {
        ExplicitBarRunWithin(n, r, t, left, right, nt - 1);
      }
    case PlateSides(e) =>
      if r <= 0.25 {
        ExplicitPlateRunWithin(n, r, t, e, col, nt - 1);
      }
  }

  /**
    Whenever `StableScheme` picks the explicit scheme, every field of the
    explicit series stays within the initial value and the boundary values.
  */
  lemma StableTemperaturesBounded(solve: Solver, dim: Dimension, n: nat, nt: nat, r: real, t: real, answers: Answers, col: nat)
    requires Sound(solve) && n >= 2 && nt >= 1 && col < n && 0.0 <= r && StableScheme(dim, r) == Explicit
    ensures var s := Temperatures(solve, Explicit, n, nt, r, t, ReadConditions(dim, answers), col);
      s.Ok? && s.value.Bars? ==> forall k :: 0 <= k < nt ==>
        Within(s.value.bars[k], Min3(t, answers.left, answers.right), Max3(t, answers.left, answers.right))
    ensures var s := Temperatures(solve, Explicit, n, nt, r, t, ReadConditions(dim, answers), col);
      s.Ok? && s.value.Plates? ==> forall k :: 0 <= k < nt ==>
        PlateWithin(s.value.plates[k], PlateFloor(t, answers.edges), PlateCeiling(t, answers.edges))
  {
    TemperaturesBounded(solve, n, nt, r, t, ReadConditions(dim, answers), col);
  }

  /** The steppers of the chosen scheme, run for the chosen dimension, with the explicit plate's bottom on column 1. */
  method RunScheme(solve: Solver, scheme: Scheme, n: nat, nt: nat, r: real, t: real, c: Conditions)
    returns (tfs: Result<Series>)
    requires Sound(solve) && n >= 2 && nt >= 1
    ensures tfs == Temperatures(solve, scheme, n, nt, r, t, c, 1)
  {
    match c {
      case BarEnds(left, right) =>
        var bars: Result<seq<Bar>>;
        if scheme == Explicit {
          var run := EulerExplicitBar(n, nt, r, t, left, right);
          bars := Ok(run);
        } else {
          bars := EulerImplicitBar(solve, n, nt, r, t, left, right);
        }
        assert bars == BarTemperatures(solve, scheme, n, nt, r, t, left, right);
        tfs := if bars.Ok? then Ok(Bars(bars.value)) else Err(bars.error);
      case PlateSides(e) =>
        var plates: Result<seq<Plate>>;
        if scheme == Explicit {
          var run := EulerExplicitPlate(n, nt, r, t, e, 1);
          plates := Ok(run);
        } else {
          plates := EulerImplicitPlate(solve, n, nt, r, t, e);
        }
        assert plates == PlateTemperatures(solve, scheme, n, nt, r, t, e, 1);
        tfs := if plates.Ok? then Ok(Plates(plates.value)) else Err(plates.error);
    }
  }

  /** The attributes of an `EquationChaleur` once `__init__` has returned. */
  datatype EquationChaleur = EquationChaleur(
    dimension: Dimension, material: string, diffusivity: real, nt: nat, nx: nat, t: real,
    conditions: Conditions, l: real, thickness: real, duree: real, grid: Grid, speed: nat,
    scheme: Scheme, tfs: Series)

  /**
    The program a set-up follows: the source as written, which picks the
    explicit scheme whenever r < 1/2 and starts the explicit plate with its
    bottom on column 1, or the program with both corrected, which picks
    `StableScheme` and starts the plate with its bottom on the last column.
  */
  datatype Variant = AsWritten | Corrected

  function ChooseScheme(v: Variant, d: Dimension, r: real): Scheme {
    match v
    case AsWritten => SelectScheme(r)
    case Corrected => StableScheme(d, r)
  }

  function InitialColumn(v: Variant, n: nat): (col: nat)
    requires n >= 2
    ensures col < n
  {
    match v
    case AsWritten => 1
    case Corrected => n - 1
  }

  /** The full set-up of a simulation under either variant, failing on the first error the source would raise. */
  function SetUp(solve: Solver, v: Variant, dimension: string, material: string, l: real, t: real, duree: real,
                 nt: nat, nx: nat, answers: Answers): (res: Result<EquationChaleur>)
    requires Sound(solve)
    ensures res.Ok? ==> nt >= 1 && nx >= 2 && SeriesShape(res.value.tfs, nt, nx)
  {
    match Lookup(material)
    case Err(e) => Err(e)
    case Ok(d) =>
      match ParseDimension(dimension)
      case Err(e) => Err(e)
      case Ok(dim) =>
        match Discretise(d, l, duree, nt, nx)
        case Err(e) => Err(e)
        case Ok(grid) =>
          if nx == 0 then Err(IndexOutOfRange)
          else
            var scheme := ChooseScheme(v, dim, grid.r);
            var c := ReadConditions(dim, answers);
            match Temperatures(solve, scheme, nx, nt, grid.r, t, c, InitialColumn(v, nx))
            case Err(e) => Err(e)
            case Ok(tfs) =>
              Ok(EquationChaleur(dim, material, d, nt, nx, t, c, l, 8.0, duree, grid, Speed(dim), scheme, tfs))
  }

  /** `EquationChaleur.__init__` as the source writes it. */
  function Simulation(solve: Solver, dimension: string, material: string, l: real, t: real, duree: real,
                      nt: nat, nx: nat, answers: Answers): (res: Result<EquationChaleur>)
    requires Sound(solve)
    ensures res.Ok? ==> nt >= 1 && nx >= 2 && SeriesShape(res.value.tfs, nt, nx)
    ensures res.Ok? ==> (res.value.scheme == Explicit <==> res.value.grid.r < 0.5)
  {
    SetUpAttributes(solve, AsWritten, dimension, material, l, t, duree, nt, nx, answers);
    SetUp(solve, AsWritten, dimension, material, l, t, duree, nt, nx, answers)
  }

  /** The set-up with both corrections: the stable selection, and every plate written with its bottom on the last column. */
  function StableSimulation(solve: Solver, dimension: string, material: string, l: real, t: real, duree: real,
                            nt: nat, nx: nat, answers: Answers): (res: Result<EquationChaleur>)
    requires Sound(solve)
    ensures res.Ok? ==> nt >= 1 && nx >= 2 && SeriesShape(res.value.tfs, nt, nx)
    ensures res.Ok? ==> res.value.scheme == StableScheme(res.value.dimension, res.value.grid.r)
  {
    SetUpAttributes(solve, Corrected, dimension, material, l, t, duree, nt, nx, answers);
    SetUp(solve, Corrected, dimension, material, l, t, duree, nt, nx, answers)
  }

  /**
    The errors in the order the source raises them: the unknown material,
    the unknown dimension, a division by zero in dt, dx or r, the empty grid,
    and last a singular system in the Crank–Nicolson scheme.
  */
  lemma SimulationErrors(solve: Solver, dimension: string, material: string, l: real, t: real, duree: real,
                         nt: nat, nx: nat, answers: Answers)
    requires Sound(solve)
    ensures material !in DIFFUSIVITY
      ==> Simulation(solve, dimension, material, l, t, duree, nt, nx, answers) == Err(UnknownMaterial)
    ensures material in DIFFUSIVITY && dimension != "1D" && dimension != "2D"
      ==> Simulation(solve, dimension, material, l, t, duree, nt, nx, answers) == Err(InvalidDimension)
    ensures material in DIFFUSIVITY && (dimension == "1D" || dimension == "2D") && (nt == 0 || nx == 1 || l == 0.0)
      ==> Simulation(solve, dimension, material, l, t, duree, nt, nx, answers) == Err(DivisionByZero)
    ensures material in DIFFUSIVITY && (dimension == "1D" || dimension == "2D") && nt >= 1 && nx == 0 && l != 0.0
      ==> Simulation(solve, dimension, material, l, t, duree, nt, nx, answers) == Err(IndexOutOfRange)
    ensures material in DIFFUSIVITY && (dimension == "1D" || dimension == "2D") && nt >= 1 && nx >= 2 && l != 0.0
      ==> (Simulation(solve, dimension, material, l, t, duree, nt, nx, answers).Ok? ||
           Simulation(solve, dimension, material, l, t, duree, nt, nx, answers) == Err(SingularMatrix))
  {
  }

  /** The attributes of a successful set-up under either variant. */
  lemma SetUpAttributes(solve: Solver, v: Variant, dimension: string, material: string, l: real, t: real, duree: real,
                        nt: nat, nx: nat, answers: Answers)
    requires Sound(solve)
    ensures var res := SetUp(solve, v, dimension, material, l, t, duree, nt, nx, answers);
      res.Ok? ==> var q := res.value;
      && material in DIFFUSIVITY && q.diffusivity == DIFFUSIVITY[material] && q.diffusivity > 0.0
      && ParseDimension(dimension) == Ok(q.dimension)
      && q.conditions == ReadConditions(q.dimension, answers)
      && Discretise(q.diffusivity, l, duree, nt, nx) == Ok(q.grid)
      && nx >= 2 && q.scheme == ChooseScheme(v, q.dimension, q.grid.r)
      && Temperatures(solve, q.scheme, nx, nt, q.grid.r, t, q.conditions, InitialColumn(v, nx)) == Ok(q.tfs)
      && q.speed == Speed(q.dimension) && q.thickness == 8.0
      && (q.tfs.Bars? <==> q.dimension == OneD)
  {
    if SetUp(solve, v, dimension, material, l, t, duree, nt, nx, answers).Ok? {
      var d := Lookup(material).value;
      var dim := ParseDimension(dimension).value;
      var grid := Discretise(d, l, duree, nt, nx).value;
      var c := ReadConditions(dim, answers);
      var scheme := ChooseScheme(v, dim, grid.r);
      var tfs := Temperatures(solve, scheme, nx, nt, grid.r, t, c, InitialColumn(v, nx));
      assert SetUp(solve, v, dimension, material, l, t, duree, nt, nx, answers)
        == Ok(EquationChaleur(dim, material, d, nt, nx, t, c, l, 8.0, duree, grid, Speed(dim), scheme, tfs.value));
    }
  }

  /**
    The attributes of a successful set-up as the source writes it: the
    steps, the ratio, the selection r < 1/2 and the series, whose explicit
    plates start with the bottom on column 1.
  */
  lemma SimulationSetUp(solve: Solver, dimension: string, material: string, l: real, t: real, duree: real,
                        nt: nat, nx: nat, answers: Answers)
    requires Sound(solve) && Simulation(solve, dimension, material, l, t, duree, nt, nx, answers).Ok?
    ensures var q := Simulation(solve, dimension, material, l, t, duree, nt, nx, answers).value;
      && material in DIFFUSIVITY && q.diffusivity == DIFFUSIVITY[material] && q.diffusivity > 0.0
      && ParseDimension(dimension) == Ok(q.dimension)
      && q.conditions == ReadConditions(q.dimension, answers)
      && Discretise(q.diffusivity, l, duree, nt, nx) == Ok(q.grid)
      && nx >= 2 && q.scheme == SelectScheme(q.grid.r)
      && Temperatures(solve, q.scheme, nx, nt, q.grid.r, t, q.conditions, 1) == Ok(q.tfs)
      && q.speed == Speed(q.dimension) && q.thickness == 8.0
      && (q.tfs.Bars? <==> q.dimension == OneD)
  {
    SetUpAttributes(solve, AsWritten, dimension, material, l, t, duree, nt, nx, answers);
  }

  /**
    The attributes of a successful corrected set-up: the grid, the stable
    selection and the series, whose explicit plates start with the bottom on
    the last column.
  */
  lemma StableSimulationSetUp(solve: Solver, dimension: string, material: string, l: real, t: real, duree: real,
                              nt: nat, nx: nat, answers: Answers)
    requires Sound(solve) && StableSimulation(solve, dimension, material, l, t, duree, nt, nx, answers).Ok?
    ensures var q := StableSimulation(solve, dimension, material, l, t, duree, nt, nx, answers).value;
      && material in DIFFUSIVITY && q.diffusivity == DIFFUSIVITY[material] && q.diffusivity > 0.0
      && q.conditions == ReadConditions(q.dimension, answers)
      && Discretise(q.diffusivity, l, duree, nt, nx) == Ok(q.grid)
      && nx >= 2 && q.scheme == StableScheme(q.dimension, q.grid.r)
      && Temperatures(solve, q.scheme, nx, nt, q.grid.r, t, q.conditions, nx - 1) == Ok(q.tfs)
  {
    SetUpAttributes(solve, Corrected, dimension, material, l, t, duree, nt, nx, answers);
  }

  /**
    Every bar of a simulation keeps its two ends, and every plate holds its
    four edges, except the first plate of the explicit scheme.
  */
  lemma SimulationHoldsEdges(solve: Solver, dimension: string, material: string, l: real, t: real, duree: real,
                             nt: nat, nx: nat, answers: Answers)
    requires Sound(solve) && Simulation(solve, dimension, material, l, t, duree, nt, nx, answers).Ok?
    ensures var q := Simulation(solve, dimension, material, l, t, duree, nt, nx, answers).value;
      q.tfs.Bars? ==> forall k :: 0 <= k < nt ==>
        q.tfs.bars[k][0] == answers.left && q.tfs.bars[k][nx - 1] == answers.right
    ensures var q := Simulation(solve, dimension, material, l, t, duree, nt, nx, answers).value;
      q.tfs.Plates? ==> forall k :: 0 <= k < nt && (q.scheme == Implicit || 1 <= k) ==>
        HoldsEdges(q.tfs.plates[k], answers.edges, nx)
  {
    var q := Simulation(solve, dimension, material, l, t, duree, nt, nx, answers).value;
    SimulationSetUp(solve, dimension, material, l, t, duree, nt, nx, answers);
    TemperaturesHoldEdges(solve, q.scheme, nx, nt, q.grid.r, t, q.conditions, 1);
  }

  /**
    When a simulation of non-negative duration runs the explicit scheme, no
    temperature of any bar leaves the range of the initial value and the
    Dirichlet values, and neither does any plate when r <= 1/4.
  */
  lemma SimulationExplicitBounded(solve: Solver, dimension: string, material: string, l: real, t: real, duree: real,
                                  nt: nat, nx: nat, answers: Answers)
    requires Sound(solve) && duree >= 0.0
    requires Simulation(solve, dimension, material, l, t, duree, nt, nx, answers).Ok?
    requires Simulation(solve, dimension, material, l, t, duree, nt, nx, answers).value.scheme == Explicit
    ensures var q := Simulation(solve, dimension, material, l, t, duree, nt, nx, answers).value;
      q.tfs.Bars? ==> forall k :: 0 <= k < nt ==>
        Within(q.tfs.bars[k], Min3(t, answers.left, answers.right), Max3(t, answers.left, answers.right))
    ensures var q := Simulation(solve, dimension, material, l, t, duree, nt, nx, answers).value;
      q.tfs.Plates? && q.grid.r <= 0.25 ==> forall k :: 0 <= k < nt ==>
        PlateWithin(q.tfs.plates[k], PlateFloor(t, answers.edges), PlateCeiling(t, answers.edges))
  {
    var q := Simulation(solve, dimension, material, l, t, duree, nt, nx, answers).value;
    SimulationSetUp(solve, dimension, material, l, t, duree, nt, nx, answers);
    assert q.grid.r >= 0.0;
    TemperaturesBounded(solve, nx, nt, q.grid.r, t, q.conditions, 1);
  }

  /** Every field of the corrected set-up holds its Dirichlet conditions, the initial field included. */
  lemma StableSimulationHoldsEdges(solve: Solver, dimension: string, material: string, l: real, t: real, duree: real,
                                   nt: nat, nx: nat, answers: Answers)
    requires Sound(solve) && StableSimulation(solve, dimension, material, l, t, duree, nt, nx, answers).Ok?
    ensures var q := StableSimulation(solve, dimension, material, l, t, duree, nt, nx, answers).value;
      q.tfs.Bars? ==> forall k :: 0 <= k < nt ==>
        q.tfs.bars[k][0] == answers.left && q.tfs.bars[k][nx - 1] == answers.right
    ensures var q := StableSimulation(solve, dimension, material, l, t, duree, nt, nx, answers).value;
      q.tfs.Plates? ==> forall k :: 0 <= k < nt ==> HoldsEdges(q.tfs.plates[k], answers.edges, nx)
  {
    var q := StableSimulation(solve, dimension, material, l, t, duree, nt, nx, answers).value;
    StableSimulationSetUp(solve, dimension, material, l, t, duree, nt, nx, answers);
    var col := nx - 1;
    TemperaturesHoldEdges(solve, q.scheme, nx, nt, q.grid.r, t, q.conditions, col);
    if q.tfs.Plates? {
      forall k | 0 <= k < nt
        ensures HoldsEdges(q.tfs.plates[k], answers.edges, nx)
      {
        assert col == nx - 1;
      }
    }
  }

  /**
    Whenever the corrected set-up of non-negative duration runs the explicit
    scheme, no temperature of any field leaves the range of the initial value
    and the Dirichlet values, for a bar and for a plate.
  */
  lemma StableSimulationBounded(solve: Solver, dimension: string, material: string, l: real, t: real, duree: real,
                                nt: nat, nx: nat, answers: Answers)
    requires Sound(solve) && duree >= 0.0
    requires StableSimulation(solve, dimension, material, l, t, duree, nt, nx, answers).Ok?
    requires StableSimulation(solve, dimension, material, l, t, duree, nt, nx, answers).value.scheme == Explicit
    ensures var q := StableSimulation(solve, dimension, material, l, t, duree, nt, nx, answers).value;
      q.tfs.Bars? ==> forall k :: 0 <= k < nt ==>
        Within(q.tfs.bars[k], Min3(t, answers.left, answers.right), Max3(t, answers.left, answers.right))
    ensures var q := StableSimulation(solve, dimension, material, l, t, duree, nt, nx, answers).value;
      q.tfs.Plates? ==> forall k :: 0 <= k < nt ==>
        PlateWithin(q.tfs.plates[k], PlateFloor(t, answers.edges), PlateCeiling(t, answers.edges))
  {
    var q := StableSimulation(solve, dimension, material, l, t, duree, nt, nx, answers).value;
    StableSimulationSetUp(solve, dimension, material, l, t, duree, nt, nx, answers);
    var col := nx - 1;
    assert Temperatures(solve, Explicit, nx, nt, q.grid.r, t, ReadConditions(q.dimension, answers), col) == Ok(q.tfs);
    assert StableScheme(q.dimension, q.grid.r) == Explicit;
    StableTemperaturesBounded(solve, q.dimension, nx, nt, q.grid.r, t, answers, col);
  }

  /** `__init__`: the set-up of `Simulation`, running the steppers of the chosen scheme. */
  method Initialise(solve: Solver, dimension: string, material: string, l: real, t: real, duree: real,
                    nt: nat, nx: nat, answers: Answers) returns (res: Result<EquationChaleur>)
    requires Sound(solve)
    ensures res == Simulation(solve, dimension, material, l, t, duree, nt, nx, answers)
  {
    var d := Lookup(material);
    if d.Err? {
      return Err(d.error);
    }
    var dim := ParseDimension(dimension);
    if dim.Err? {
      return Err(dim.error);
    }
    var grid := Discretise(d.value, l, duree, nt, nx);
    if grid.Err? {
      return Err(grid.error);
    }
    if nx == 0 {
      return Err(IndexOutOfRange);
    }
    var scheme := SelectScheme(grid.value.r);
    var c := ReadConditions(dim.value, answers);
    var tfs := RunScheme(solve, scheme, nx, nt, grid.value.r, t, c);
    if tfs.Err? {
      return Err(tfs.error);
    }
    res := Ok(EquationChaleur(dim.value, material, d.value, nt, nx, t, c, l, 8.0, duree, grid.value,
                              Speed(dim.value), scheme, tfs.value));
  }

  /**
    A copper bar of length 50 in 5 cells, at 20 with ends 10 and 30, run for
    0.001 in 10 steps: the ratio is small, the explicit scheme runs, the first
    bar is 10, 20, 20, 20, 30 and every later bar keeps both ends.
  */
  lemma CopperBarScenario(solve: Solver)
    requires Sound(solve)
    ensures var s := Simulation(solve, "1D", "Cuivre", 50.0, 20.0, 0.001, 10, 5, Answers(10.0, 30.0, ColdEdges));
      && s.Ok? && s.value.grid.dx == 12.5 && s.value.grid.dt == 0.0001 && s.value.scheme == Explicit
      && s.value.tfs.Bars? && s.value.tfs.bars[0] == [10.0, 20.0, 20.0, 20.0, 30.0]
      && forall k :: 0 <= k < 10 ==> s.value.tfs.bars[k][0] == 10.0 && s.value.tfs.bars[k][4] == 30.0
  {
    var answers := Answers(10.0, 30.0, ColdEdges);
    var g := Discretise(117.0, 50.0, 0.001, 10, 5).value;
    assert g.dx == 12.5 && g.dt == 0.0001;
    assert Square(g.dx) == 156.25;
    assert g.r < 0.5;
    var bars := ExplicitBarRun(5, g.r, 20.0, 10.0, 30.0, 9);
    ExplicitBarRunSteps(5, g.r, 20.0, 10.0, 30.0, 9);
    ExplicitBarRunEdges(5, g.r, 20.0, 10.0, 30.0, 9);
    assert bars[0] == [10.0, 20.0, 20.0, 20.0, 30.0];
    assert Temperatures(solve, Explicit, 5, 10, g.r, 20.0, BarEnds(10.0, 30.0), 1) == Ok(Bars(bars));
    assert SetUp(solve, AsWritten, "1D", "Cuivre", 50.0, 20.0, 0.001, 10, 5, answers)
      == Ok(EquationChaleur(OneD, "Cuivre", 117.0, 10, 5, 20.0, BarEnds(10.0, 30.0), 50.0, 8.0, 0.001, g,
                            1000, Explicit, Bars(bars)));
    assert Simulation(solve, "1D", "Cuivre", 50.0, 20.0, 0.001, 10, 5, answers)
      == Ok(EquationChaleur(OneD, "Cuivre", 117.0, 10, 5, 20.0, BarEnds(10.0, 30.0), 50.0, 8.0, 0.001, g,
                            1000, Explicit, Bars(bars)));
  }

  /**
    A copper plate at the default arguments (L = 50, duree = 4, Nt = 1000,
    Nx = 40): the source runs the explicit scheme, since r < 1/2, while the
    corrected set-up runs Crank–Nicolson, since r > 1/4.
  */
  lemma CopperPlateDefaults(solve: Solver, t: real, answers: Answers)
    requires Sound(solve)
    ensures Simulation(solve, "2D", "Cuivre", 50.0, t, 4.0, 1000, 40, answers).Ok?
    ensures Simulation(solve, "2D", "Cuivre", 50.0, t, 4.0, 1000, 40, answers).value.scheme == Explicit
    ensures StableSimulation(solve, "2D", "Cuivre", 50.0, t, 4.0, 1000, 40, answers).Ok? ==>
      StableSimulation(solve, "2D", "Cuivre", 50.0, t, 4.0, 1000, 40, answers).value.scheme == Implicit
  {
    CopperDefaultsRatio();
    SimulationErrors(solve, "2D", "Cuivre", 50.0, t, 4.0, 1000, 40, answers);
  }

  /** The colours of a series: one per cell of every field. */
  datatype Colouring = BarColours(bars: seq<seq<Rgb>>) | PlateColours(plates: seq<seq<seq<Rgb>>>)

  predicate SeriesNonEmpty(s: Series) {
    match s
    case Bars(bars) => NonEmptyLines(bars)
    case Plates(plates) => NonEmptyPlates(plates)
  }

  /** A successful simulation has a series the colouring accepts. */
  lemma SimulationColourable(solve: Solver, dimension: string, material: string, l: real, t: real, duree: real,
                             nt: nat, nx: nat, answers: Answers)
    requires Sound(solve) && Simulation(solve, dimension, material, l, t, duree, nt, nx, answers).Ok?
    ensures SeriesNonEmpty(Simulation(solve, dimension, material, l, t, duree, nt, nx, answers).value.tfs)
  {
    var q := Simulation(solve, dimension, material, l, t, duree, nt, nx, answers).value;
    match q.tfs
    case Bars(bars) =>
      assert |bars[0]| == nx;
    case Plates(plates) =>
      forall k | 0 <= k < |plates|
        ensures NonEmptyLines(plates[k])
      {
        assert IsSquare(plates[k], nx);
      }
  }

  /**
    `ObtenirCouleur`: the colour of every cell of every field, against the
    least and greatest temperature of the whole series.
  */
  method ObtainColours(s: Series) returns (c: Colouring)
    requires SeriesNonEmpty(s)
    ensures s.Bars? ==> c == BarColours(GridColours(s.bars, GridMin(s.bars), GridMax(s.bars)))
    ensures s.Plates? ==> c == PlateColours(SeriesColours(s.plates, PlateSeriesMin(s.plates), PlateSeriesMax(s.plates)))
  {
    match s {
      case Bars(bars) =>
        var couleurs := ColourBarSeries(bars);
        c := BarColours(couleurs);
      case Plates(plates) =>
        var couleurs := ColourPlateSeries(plates);
        c := PlateColours(couleurs);
    }
  }
}
