/**
  The Crank–Nicolson (implicit) scheme.  On a bar each step solves
  A·x = M·T with tridiagonal A and M whose first and last rows are unit rows,
  then writes both ends again.  On a plate each step is a column sweep
  followed by a row sweep, each a tridiagonal solve per line with the same A
  and M, then the four edges are written again.  The solve itself is the
  external `Solver`, known only through `Sound`.
*/
module ImplicitScheme {
  import opened Basics
  import opened LinearAlgebra
  import opened Fields

  // ---------------------------------------------------------------- bar

  /** The tridiagonal matrix (c1, c2) with its first and last rows overridden to unit rows. */
  function BarSystem(n: nat, c1: real, c2: real): (m: Matrix)
    ensures IsSquare(m, n)
  {
    seq(n, i => seq(n, j =>
      if i == 0 || i == n - 1 then (if i == j then 1.0 else 0.0) else TridiagonalEntry(c1, c2, i, j)))
  }

  /** Writing `left` at index 0 and `right` at the last index. */
  function ResetEnds(x: Bar, left: real, right: real): (y: Bar)
    ensures |y| == |x|
  {
    if |x| == 0 then x else x[0 := left][|x| - 1 := right]
  }

  /** The unit end rows make the product keep the end values: (M·x)[0] = x[0], (M·x)[n-1] = x[n-1]. */
  lemma BarSystemKeepsEnds(n: nat, c1: real, c2: real, x: Vector)
    requires n >= 2 && |x| == n
    ensures MatVec(BarSystem(n, c1, c2), x)[0] == x[0]
    ensures MatVec(BarSystem(n, c1, c2), x)[n - 1] == x[n - 1]
  {
    var m := BarSystem(n, c1, c2);
    DotUnitRow(m[0], x, 0);
    DotUnitRow(m[n - 1], x, n - 1);
  }

  /** The three-point combination c2·x[i-1] + c1·x[i] + c2·x[i+1]. */
  function BarCombination(c1: real, c2: real, x: Vector, i: nat): real
    requires 1 <= i < |x| - 1
  {
    c2 * x[i - 1] + c1 * x[i] + c2 * x[i + 1]
  }

  /** Inside, the product is the three-point combination of the row's coefficients. */
  lemma BarSystemInterior(n: nat, c1: real, c2: real, x: Vector, i: nat)
    requires |x| == n && 1 <= i < n - 1
    ensures MatVec(BarSystem(n, c1, c2), x)[i] == BarCombination(c1, c2, x, i)
  {
    DotBandRow(BarSystem(n, c1, c2)[i], x, i);
  }

  /**
    The Crank–Nicolson equation at interior cell i between bars p and q:
    -r/2 q[i-1] + (1+r) q[i] - r/2 q[i+1] = r/2 p[i-1] + (1-r) p[i] + r/2 p[i+1].
  */
  predicate CrankNicolsonAt(p: Bar, q: Bar, r: real, i: nat)
    requires |q| == |p| && 1 <= i < |p| - 1
  {
    BarCombination(1.0 + r, -r / 2.0, q, i) == BarCombination(1.0 - r, r / 2.0, p, i)
  }

  /** q follows p by the Crank–Nicolson equation at every interior cell. */
  predicate CrankNicolson(p: Bar, q: Bar, r: real)
  {
    |q| == |p| && forall i :: 1 <= i < |p| - 1 ==> CrankNicolsonAt(p, q, r, i)
  }

  /** One implicit bar step: B = M·p, solve A·x = B, then write both ends. */
  function ImplicitBarStep(solve: Solver, a: Matrix, m: Matrix, p: Bar, left: real, right: real): (q: Result<Bar>)
    requires Sound(solve) && IsSquare(m, |p|)
    ensures q.Ok? ==> |q.value| == |p|
    ensures q.Err? ==> q.error == SingularMatrix
  {
    match SolveSystem(solve, a, MatVec(m, p))
    case Err(err) => Err(err)
    case Ok(x) => Ok(ResetEnds(x, left, right))
  }

  /**
    The re-imposition of the ends is only defensive: when p already holds the
    end values, a solution of A·x = M·p holds them too.
  */
  lemma ImplicitBarSolutionKeepsEnds(n: nat, r: real, p: Bar, x: Vector)
    requires n >= 2 && |p| == n && |x| == n
    requires MatVec(BarSystem(n, 1.0 + r, -r / 2.0), x) == MatVec(BarSystem(n, 1.0 - r, r / 2.0), p)
    ensures x[0] == p[0] && x[n - 1] == p[n - 1]
  {
    BarSystemKeepsEnds(n, 1.0 + r, -r / 2.0, x);
    BarSystemKeepsEnds(n, 1.0 - r, r / 2.0, p);
  }

  /** So an implicit step from a bar holding `left` and `right` at its ends is the bare solution. */
  lemma ImplicitBarResetRedundant(solve: Solver, n: nat, r: real, p: Bar, left: real, right: real)
    requires Sound(solve) && n >= 2 && |p| == n && p[0] == left && p[n - 1] == right
    requires SolveSystem(solve, BarSystem(n, 1.0 + r, -r / 2.0), MatVec(BarSystem(n, 1.0 - r, r / 2.0), p)).Ok?
    ensures ImplicitBarStep(solve, BarSystem(n, 1.0 + r, -r / 2.0), BarSystem(n, 1.0 - r, r / 2.0), p, left, right)
         == SolveSystem(solve, BarSystem(n, 1.0 + r, -r / 2.0), MatVec(BarSystem(n, 1.0 - r, r / 2.0), p))
  {
    var x := SolveSystem(solve, BarSystem(n, 1.0 + r, -r / 2.0), MatVec(BarSystem(n, 1.0 - r, r / 2.0), p)).value;
    ImplicitBarSolutionKeepsEnds(n, r, p, x);
    assert x[0 := left][n - 1 := right] == x;
  }

  /** An implicit bar step from a bar that holds its end values satisfies the Crank–Nicolson equation. */
  lemma ImplicitBarStepEquation(solve: Solver, n: nat, r: real, p: Bar, left: real, right: real, q: Bar)
    requires Sound(solve) && n >= 2 && |p| == n && p[0] == left && p[n - 1] == right
    requires ImplicitBarStep(solve, BarSystem(n, 1.0 + r, -r / 2.0), BarSystem(n, 1.0 - r, r / 2.0), p, left, right) == Ok(q)
    ensures CrankNicolson(p, q, r)
  {
    ImplicitBarResetRedundant(solve, n, r, p, left, right);
    assert MatVec(BarSystem(n, 1.0 + r, -r / 2.0), q) == MatVec(BarSystem(n, 1.0 - r, r / 2.0), p);
    forall i | 1 <= i < n - 1
      ensures CrankNicolsonAt(p, q, r, i)
    {
      BarSystemInterior(n, 1.0 + r, -r / 2.0, q, i);
      BarSystemInterior(n, 1.0 - r, r / 2.0, p, i);
    }
  }

  /**
    The series of bars after `steps` implicit steps with the system matrices
    a and m, or the error of the first failed solve.
  */
  function ImplicitBarRun(solve: Solver, a: Matrix, m: Matrix, n: nat, t: real, left: real, right: real, steps: nat): (s: Result<seq<Bar>>)
    requires Sound(solve) && IsSquare(m, n)
    ensures s.Ok? ==> |s.value| == steps + 1 && forall k :: 0 <= k <= steps ==> |s.value[k]| == n
    ensures s.Err? ==> s.error == SingularMatrix
    decreases steps
  {
    if steps == 0 then Ok([InitialBar(n, t, left, right)])
    else
      match ImplicitBarRun(solve, a, m, n, t, left, right, steps - 1)
      case Err(err) => Err(err)
      case Ok(s) =>
        match ImplicitBarStep(solve, a, m, s[steps - 1], left, right)
        case Err(err) => Err(err)
        case Ok(q) => Ok(s + [q])
  }

  /** A successful run extends every shorter run. */
  lemma {:induction false} ImplicitBarRunPrefix(solve: Solver, a: Matrix, m: Matrix, n: nat, t: real, left: real, right: real, steps: nat, j: nat)
    requires Sound(solve) && IsSquare(m, n) && j <= steps
    ensures ImplicitBarRun(solve, a, m, n, t, left, right, steps).Ok? ==>
      ImplicitBarRun(solve, a, m, n, t, left, right, j).Ok? &&
      ImplicitBarRun(solve, a, m, n, t, left, right, steps).value[..j + 1] == ImplicitBarRun(solve, a, m, n, t, left, right, j).value
    decreases steps
  {
    if j < steps {
      ImplicitBarRunPrefix(solve, a, m, n, t, left, right, steps - 1, j);
    }
  }

  /** Once a solve has failed, every longer run fails with the same error. */
  lemma {:induction false} ImplicitBarRunFails(solve: Solver, a: Matrix, m: Matrix, n: nat, t: real, left: real, right: real, steps: nat, j: nat)
    requires Sound(solve) && IsSquare(m, n) && j <= steps && ImplicitBarRun(solve, a, m, n, t, left, right, j).Err?
    ensures ImplicitBarRun(solve, a, m, n, t, left, right, steps) == Err(SingularMatrix)
    decreases steps
  {
    if j < steps {
      ImplicitBarRunFails(solve, a, m, n, t, left, right, steps - 1, j);
    }
  }

  /**
    s is a series of bars as the implicit scheme produces it: the initial bar
    first, then each bar one successful step from the one before.
  */
  predicate ImplicitBarSeries(solve: Solver, a: Matrix, m: Matrix, n: nat, t: real, left: real, right: real, s: seq<Bar>)
    requires Sound(solve) && IsSquare(m, n)
  {
    |s| >= 1 && s[0] == InitialBar(n, t, left, right) &&
    (forall k :: 0 <= k < |s| ==> |s[k]| == n) &&
    forall k :: 0 <= k < |s| - 1 ==> ImplicitBarStep(solve, a, m, s[k], left, right) == Ok(s[k + 1])
  }

  /** A successful step from the last bar extends the series. */
  lemma ImplicitBarSeriesExtend(solve: Solver, a: Matrix, m: Matrix, n: nat, t: real, left: real, right: real, s: seq<Bar>, q: Bar)
    requires Sound(solve) && IsSquare(m, n) && ImplicitBarSeries(solve, a, m, n, t, left, right, s)
    requires ImplicitBarStep(solve, a, m, s[|s| - 1], left, right) == Ok(q)
    ensures ImplicitBarSeries(solve, a, m, n, t, left, right, s + [q])
  {
    var s' := s + [q];
    assert forall k :: 0 <= k < |s| ==> s'[k] == s[k];
  }

  /** A series of bars is the successful run of its length. */
  lemma {:induction false} ImplicitBarSeriesIsRun(solve: Solver, a: Matrix, m: Matrix, n: nat, t: real, left: real, right: real, s: seq<Bar>, steps: nat)
    requires Sound(solve) && IsSquare(m, n) && ImplicitBarSeries(solve, a, m, n, t, left, right, s) && |s| == steps + 1
    ensures ImplicitBarRun(solve, a, m, n, t, left, right, steps) == Ok(s)
    decreases steps
  {
    if steps > 0 {
      var front := s[..steps];
      assert forall k :: 0 <= k < |front| ==> front[k] == s[k];
      ImplicitBarSeriesIsRun(solve, a, m, n, t, left, right, front, steps - 1);
      assert ImplicitBarStep(solve, a, m, front[|s| - 2], left, right) == Ok(s[|s| - 1]);
      assert front + [s[|s| - 1]] == s;
    } else {
      assert s == [s[0]];
    }
  }

  /** A series whose next step fails makes every longer run fail. */
  lemma ImplicitBarSeriesFails(solve: Solver, a: Matrix, m: Matrix, n: nat, t: real, left: real, right: real, s: seq<Bar>, steps: nat)
    requires Sound(solve) && IsSquare(m, n) && ImplicitBarSeries(solve, a, m, n, t, left, right, s)
    requires ImplicitBarStep(solve, a, m, s[|s| - 1], left, right).Err? && |s| - 1 < steps
    ensures ImplicitBarRun(solve, a, m, n, t, left, right, steps) == Err(SingularMatrix)
  {
    ImplicitBarSeriesIsRun(solve, a, m, n, t, left, right, s, |s| - 1);
    ImplicitBarRunFails(solve, a, m, n, t, left, right, steps, |s|);
  }

  /** Conversely, a successful run is a series of bars. */
  lemma ImplicitBarRunIsSeries(solve: Solver, a: Matrix, m: Matrix, n: nat, t: real, left: real, right: real, steps: nat)
    requires Sound(solve) && IsSquare(m, n) && ImplicitBarRun(solve, a, m, n, t, left, right, steps).Ok?
    ensures ImplicitBarSeries(solve, a, m, n, t, left, right, ImplicitBarRun(solve, a, m, n, t, left, right, steps).value)
  {
    var s := ImplicitBarRun(solve, a, m, n, t, left, right, steps).value;
    ImplicitBarRunPrefix(solve, a, m, n, t, left, right, steps, 0);
    assert s[0] == s[..1][0];
    forall k | 0 <= k < steps
      ensures ImplicitBarStep(solve, a, m, s[k], left, right) == Ok(s[k + 1])
    {
      ImplicitBarRunPrefix(solve, a, m, n, t, left, right, steps, k + 1);
      ImplicitBarRunPrefix(solve, a, m, n, t, left, right, k + 1, k);
      assert s[k] == s[..k + 2][k];
      assert s[k + 1] == s[..k + 2][k + 1];
    }
  }

  /**
    Every bar of a successful implicit run keeps `left` at index 0 and `right`
    at the last index, whatever the system matrices.
  */
  lemma ImplicitBarRunEdges(solve: Solver, a: Matrix, m: Matrix, n: nat, t: real, left: real, right: real, steps: nat)
    requires Sound(solve) && IsSquare(m, n) && n >= 2 && ImplicitBarRun(solve, a, m, n, t, left, right, steps).Ok?
    ensures forall k :: 0 <= k <= steps ==>
      ImplicitBarRun(solve, a, m, n, t, left, right, steps).value[k][0] == left &&
      ImplicitBarRun(solve, a, m, n, t, left, right, steps).value[k][n - 1] == right
  {
    var s := ImplicitBarRun(solve, a, m, n, t, left, right, steps).value;
    ImplicitBarRunIsSeries(solve, a, m, n, t, left, right, steps);
    forall k | 0 < k <= steps
      ensures s[k][0] == left && s[k][n - 1] == right
    {
      assert ImplicitBarStep(solve, a, m, s[k - 1], left, right) == Ok(s[k]);
    }
  }

  /** With the Crank–Nicolson matrices, consecutive bars of a successful run satisfy the Crank–Nicolson equation. */
  lemma ImplicitBarRunEquation(solve: Solver, a: Matrix, m: Matrix, n: nat, r: real, t: real, left: real, right: real, steps: nat)
    requires Sound(solve) && n >= 2
    requires a == BarSystem(n, 1.0 + r, -r / 2.0) && m == BarSystem(n, 1.0 - r, r / 2.0)
    requires ImplicitBarRun(solve, a, m, n, t, left, right, steps).Ok?
    ensures forall k :: 0 <= k < steps ==>
      CrankNicolson(ImplicitBarRun(solve, a, m, n, t, left, right, steps).value[k],
                    ImplicitBarRun(solve, a, m, n, t, left, right, steps).value[k + 1], r)
  {
    var s := ImplicitBarRun(solve, a, m, n, t, left, right, steps).value;
    ImplicitBarRunIsSeries(solve, a, m, n, t, left, right, steps);
    ImplicitBarRunEdges(solve, a, m, n, t, left, right, steps);
    forall k | 0 <= k < steps
      ensures CrankNicolson(s[k], s[k + 1], r)
    {
      ImplicitBarStepEquation(solve, n, r, s[k], left, right, s[k + 1]);
    }
  }

  /** Entry (i, j) of the tridiagonal matrix after A[0,0] = 1, A[0,1] = 0, A[-1,-1] = 1, A[-1,-2] = 0. */
  function BarOverride(n: nat, c1: real, c2: real, i: nat, j: nat): real
    requires n >= 2
  {
    if (i == 0 && j == 0) || (i == n - 1 && j == n - 1) then 1.0
    else if (i == 0 && j == 1) || (i == n - 1 && j == n - 2) then 0.0
    else TridiagonalEntry(c1, c2, i, j)
  }

  /** Overriding those four entries of the tridiagonal matrix yields the bar system. */
  lemma BarOverrideIsBarSystem(m: Matrix, n: nat, c1: real, c2: real)
    requires n >= 2 && IsSquare(m, n)
    requires forall i, j :: 0 <= i < n && 0 <= j < n ==> m[i][j] == BarOverride(n, c1, c2, i, j)
    ensures m == BarSystem(n, c1, c2)
  {
    PlateExtensionality(m, BarSystem(n, c1, c2), n);
  }

  /** The four assignments that turn the end rows into unit rows. */
  method SetUnitEndRows(a: array2<real>, n: nat)
    requires a.Length0 == n && a.Length1 == n && n >= 2
    modifies a
    ensures forall i, j :: 0 <= i < n && 0 <= j < n ==>
      a[i, j] == (if (i == 0 && j == 0) || (i == n - 1 && j == n - 1) then 1.0
                  else if (i == 0 && j == 1) || (i == n - 1 && j == n - 2) then 0.0
                  else old(a[i, j]))
  {
    a[0, 0], a[n - 1, n - 1] := 1.0, 1.0;
    a[0, 1], a[n - 1, n - 2] := 0.0, 0.0;
  }

  /** The bar system built as the source does: the tridiagonal matrix, then the end rows overwritten. */
  method BarSystemMatrix(n: nat, c1: real, c2: real) returns (m: Matrix)
    requires n >= 2
    ensures m == BarSystem(n, c1, c2)
  {
    var a := TridiagonalMatrix(n, c1, c2);
    ghost var t0 := Snapshot(a);
    TridiagonalSnapshot(a, n, c1, c2);
    SetUnitEndRows(a, n);
    m := Snapshot(a);
    forall i, j | 0 <= i < n && 0 <= j < n
      ensures m[i][j] == BarOverride(n, c1, c2, i, j)
    {
      assert t0[i][j] == Tridiagonal(n, c1, c2)[i][j];
    }
    BarOverrideIsBarSystem(m, n, c1, c2);
  }

  /** One pass of the bar loop: solve A·x = M·before, then overwrite both ends of the solution. */
  method ImplicitBarUpdate(solve: Solver, matA: Matrix, matM: Matrix, before: Bar, left: real, right: real)
    returns (res: Result<Bar>)
    requires Sound(solve) && IsSquare(matM, |before|) && |before| >= 2
    ensures res == ImplicitBarStep(solve, matA, matM, before, left, right)
  {
    var x := SolveSystem(solve, matA, MatVec(matM, before));
    if x.Err? {
      return Err(x.error);
    }
    var now := x.value;
    now := now[0 := left];
    now := now[|now| - 1 := right];
    res := Ok(now);
  }

  /** The time loop of `EulerImplicite` on a bar, for given system matrices. */
  method ImplicitBarLoop(solve: Solver, matA: Matrix, matM: Matrix, n: nat, nt: nat, t: real, left: real, right: real)
    returns (res: Result<seq<Bar>>)
    requires Sound(solve) && IsSquare(matM, n) && n >= 2 && nt >= 1
    ensures res == ImplicitBarRun(solve, matA, matM, n, t, left, right, nt - 1)
  {
    var first := NewBar(n, t, left, right);
    var tfs := [first];
    for k := 0 to nt - 1
      invariant |tfs| == k + 1
      invariant ImplicitBarSeries(solve, matA, matM, n, t, left, right, tfs)
    {
      var next := ImplicitBarUpdate(solve, matA, matM, tfs[k], left, right);
      if next.Err? {
        ImplicitBarSeriesFails(solve, matA, matM, n, t, left, right, tfs, nt - 1);
        return Err(SingularMatrix);
      }
      ImplicitBarSeriesExtend(solve, matA, matM, n, t, left, right, tfs, next.value);
      tfs := tfs + [next.value];
    }
    ImplicitBarSeriesIsRun(solve, matA, matM, n, t, left, right, tfs, nt - 1);
    res := Ok(tfs);
  }

  /**
    `EulerImplicite` on a bar: the full series of `nt` bars under the
    Crank–Nicolson matrices, or the solver's failure.
  */
  method EulerImplicitBar(solve: Solver, n: nat, nt: nat, r: real, t: real, left: real, right: real)
    returns (res: Result<seq<Bar>>)
    requires Sound(solve) && n >= 2 && nt >= 1
    ensures res == ImplicitBarRun(solve, BarSystem(n, 1.0 + r, -r / 2.0), BarSystem(n, 1.0 - r, r / 2.0), n, t, left, right, nt - 1)
  {
    var matA := BarSystem(n, 1.0 + r, -r / 2.0);
    var matM := BarSystem(n, 1.0 - r, r / 2.0);
    res := ImplicitBarLoop(solve, matA, matM, n, nt, t, left, right);
  }

  // -------------------------------------------------------------- plate

  /** `g[:, j]`. */
  function Column(g: Plate, j: nat, n: nat): (c: Vector)
    requires IsSquare(g, n) && j < n
    ensures |c| == n
  {
    seq(n, i requires 0 <= i < n => g[i][j])
  }

  /** The plate whose rows are the columns of `g`. */
  function Transpose(g: Plate, n: nat): (h: Plate)
    requires IsSquare(g, n)
    ensures IsSquare(h, n)
  {
    seq(n, j requires 0 <= j < n => Column(g, j, n))
  }

  /** Solving a·x = m·v for each v in turn: all the solutions, or the error of the first failure. */
  function SolveEach(solve: Solver, a: Matrix, m: Matrix, vs: seq<Vector>, n: nat): (xs: Result<seq<Vector>>)
    requires Sound(solve) && IsSquare(m, n)
    requires forall k :: 0 <= k < |vs| ==> |vs[k]| == n
    ensures xs.Ok? ==> |xs.value| == |vs|
    ensures xs.Ok? ==> forall k :: 0 <= k < |vs| ==> SolveSystem(solve, a, MatVec(m, vs[k])) == Ok(xs.value[k])
    ensures xs.Err? <==> exists k :: 0 <= k < |vs| && SolveSystem(solve, a, MatVec(m, vs[k])).Err?
    ensures xs.Err? ==> xs.error == SingularMatrix
    decreases |vs|
  {
    if |vs| == 0 then Ok([])
    else
      var front := vs[..|vs| - 1];
      match SolveEach(solve, a, m, front, n)
      case Err(err) =>
        ghost var k :| 0 <= k < |front| && SolveSystem(solve, a, MatVec(m, front[k])).Err?;
        assert vs[k] == front[k];
        Err(err)
      case Ok(xs) =>
        assert forall k :: 0 <= k < |front| ==> vs[k] == front[k];
        match SolveSystem(solve, a, MatVec(m, vs[|vs| - 1]))
        case Err(err) => Err(err)
        case Ok(x) => Ok(xs + [x])
  }

  /** Solutions of a square system have the system's size. */
  lemma SolutionsSquare(solve: Solver, a: Matrix, m: Matrix, vs: seq<Vector>, n: nat)
    requires Sound(solve) && IsSquare(m, n) && |vs| == n
    requires forall k :: 0 <= k < |vs| ==> |vs[k]| == n
    requires SolveEach(solve, a, m, vs, n).Ok?
    ensures IsSquare(SolveEach(solve, a, m, vs, n).value, n)
  {
    var xs := SolveEach(solve, a, m, vs, n).value;
    forall k | 0 <= k < n
      ensures |xs[k]| == n
    {
      assert SolveSystem(solve, a, MatVec(m, vs[k])) == Ok(xs[k]);
    }
  }

  /**
    The column sweep: for every column j, A·x = M·(column j of g); the
    intermediate field holds x in column j.
  */
  function ColumnSweep(solve: Solver, a: Matrix, m: Matrix, g: Plate, n: nat): (c: Result<Plate>)
    requires Sound(solve) && IsSquare(m, n) && IsSquare(g, n)
    ensures c.Ok? ==> IsSquare(c.value, n)
    ensures c.Ok? ==> forall j :: 0 <= j < n ==>
      IsSquare(a, n) && MatVec(a, Column(c.value, j, n)) == MatVec(m, Column(g, j, n))
    ensures c.Err? ==> c.error == SingularMatrix
  {
    match SolveEach(solve, a, m, Transpose(g, n), n)
    case Err(err) => Err(err)
    case Ok(cols) =>
      SolutionsSquare(solve, a, m, Transpose(g, n), n);
      var c := Transpose(cols, n);
      assert forall j :: 0 <= j < n ==> Column(c, j, n) == cols[j];
      assert forall j :: 0 <= j < n ==> SolveSystem(solve, a, MatVec(m, Column(g, j, n))) == Ok(cols[j]);
      Ok(c)
  }

  /** The row sweep: for every row i, A·x = M·(row i of c); the result holds x in row i. */
  function RowSweep(solve: Solver, a: Matrix, m: Matrix, c: Plate, n: nat): (l: Result<Plate>)
    requires Sound(solve) && IsSquare(m, n) && IsSquare(c, n)
    ensures l.Ok? ==> IsSquare(l.value, n)
    ensures l.Ok? ==> forall i :: 0 <= i < n ==> IsSquare(a, n) && MatVec(a, l.value[i]) == MatVec(m, c[i])
    ensures l.Err? ==> l.error == SingularMatrix
  {
    match SolveEach(solve, a, m, c, n)
    case Err(err) => Err(err)
    case Ok(rows) =>
      SolutionsSquare(solve, a, m, c, n);
      assert forall i :: 0 <= i < n ==> SolveSystem(solve, a, MatVec(m, c[i])) == Ok(rows[i]);
      Ok(rows)
  }

  /** One implicit plate step: column sweep, row sweep, then the four edges with `bottom` on the last column. */
  function ImplicitPlateStep(solve: Solver, a: Matrix, m: Matrix, p: Plate, e: PlateEdges, n: nat): (q: Result<Plate>)
    requires Sound(solve) && IsSquare(m, n) && IsSquare(p, n) && n >= 1
    ensures q.Ok? ==> IsSquare(q.value, n)
    ensures q.Err? ==> q.error == SingularMatrix
  {
    match ColumnSweep(solve, a, m, p, n)
    case Err(err) => Err(err)
    case Ok(c) =>
      match RowSweep(solve, a, m, c, n)
      case Err(err) => Err(err)
      case Ok(l) => Ok(ImposeEdges(l, e, n, n - 1))
  }

  /** The series of plates after `steps` implicit steps with the sweep matrices a and m, or the first failure. */
  function ImplicitPlateRun(solve: Solver, a: Matrix, m: Matrix, n: nat, t: real, e: PlateEdges, steps: nat): (s: Result<seq<Plate>>)
    requires Sound(solve) && IsSquare(m, n) && n >= 1
    ensures s.Ok? ==> |s.value| == steps + 1 && forall k :: 0 <= k <= steps ==> IsSquare(s.value[k], n)
    ensures s.Err? ==> s.error == SingularMatrix
    decreases steps
  {
    if steps == 0 then Ok([InitialPlate(n, t, e, n - 1)])
    else
      match ImplicitPlateRun(solve, a, m, n, t, e, steps - 1)
      case Err(err) => Err(err)
      case Ok(s) =>
        match ImplicitPlateStep(solve, a, m, s[steps - 1], e, n)
        case Err(err) => Err(err)
        case Ok(q) => Ok(s + [q])
  }

  /** A successful run extends every shorter run. */
  lemma {:induction false} ImplicitPlateRunPrefix(solve: Solver, a: Matrix, m: Matrix, n: nat, t: real, e: PlateEdges, steps: nat, j: nat)
    requires Sound(solve) && IsSquare(m, n) && n >= 1 && j <= steps
    ensures ImplicitPlateRun(solve, a, m, n, t, e, steps).Ok? ==>
      ImplicitPlateRun(solve, a, m, n, t, e, j).Ok? &&
      ImplicitPlateRun(solve, a, m, n, t, e, steps).value[..j + 1] == ImplicitPlateRun(solve, a, m, n, t, e, j).value
    decreases steps
  {
    if j < steps {
      ImplicitPlateRunPrefix(solve, a, m, n, t, e, steps - 1, j);
    }
  }

  /** Once a sweep has failed, every longer run fails with the same error. */
  lemma {:induction false} ImplicitPlateRunFails(solve: Solver, a: Matrix, m: Matrix, n: nat, t: real, e: PlateEdges, steps: nat, j: nat)
    requires Sound(solve) && IsSquare(m, n) && n >= 1 && j <= steps && ImplicitPlateRun(solve, a, m, n, t, e, j).Err?
    ensures ImplicitPlateRun(solve, a, m, n, t, e, steps) == Err(SingularMatrix)
    decreases steps
  {
    if j < steps {
      ImplicitPlateRunFails(solve, a, m, n, t, e, steps - 1, j);
    }
  }

  /** In a successful run, plate k+1 is one implicit step from plate k. */
  lemma ImplicitPlateRunStep(solve: Solver, a: Matrix, m: Matrix, n: nat, t: real, e: PlateEdges, steps: nat, k: nat)
    requires Sound(solve) && IsSquare(m, n) && n >= 1 && k < steps && ImplicitPlateRun(solve, a, m, n, t, e, steps).Ok?
    ensures ImplicitPlateStep(solve, a, m, ImplicitPlateRun(solve, a, m, n, t, e, steps).value[k], e, n)
         == Ok(ImplicitPlateRun(solve, a, m, n, t, e, steps).value[k + 1])
  {
    var s := ImplicitPlateRun(solve, a, m, n, t, e, steps).value;
    ImplicitPlateRunPrefix(solve, a, m, n, t, e, steps, k + 1);
    ImplicitPlateRunPrefix(solve, a, m, n, t, e, k + 1, k);
    assert s[k] == s[..k + 2][k];
    assert s[k + 1] == s[..k + 2][k + 1];
  }

  /** s is a series of plates as the implicit scheme produces it: the initial plate, then one successful step at a time. */
  predicate ImplicitPlateSeries(solve: Solver, a: Matrix, m: Matrix, n: nat, t: real, e: PlateEdges, s: seq<Plate>)
    requires Sound(solve) && IsSquare(m, n) && n >= 1
  {
    |s| >= 1 && s[0] == InitialPlate(n, t, e, n - 1) &&
    (forall k :: 0 <= k < |s| ==> IsSquare(s[k], n)) &&
    forall k :: 0 <= k < |s| - 1 ==> ImplicitPlateStep(solve, a, m, s[k], e, n) == Ok(s[k + 1])
  }

  /** A successful step from the last plate extends the series. */
  lemma ImplicitPlateSeriesExtend(solve: Solver, a: Matrix, m: Matrix, n: nat, t: real, e: PlateEdges, s: seq<Plate>, q: Plate)
    requires Sound(solve) && IsSquare(m, n) && n >= 1 && ImplicitPlateSeries(solve, a, m, n, t, e, s)
    requires ImplicitPlateStep(solve, a, m, s[|s| - 1], e, n) == Ok(q)
    ensures ImplicitPlateSeries(solve, a, m, n, t, e, s + [q])
  {
    var s' := s + [q];
    assert forall k :: 0 <= k < |s| ==> s'[k] == s[k];
  }

  /** A successful run followed by a successful step is the next run. */
  lemma ImplicitPlateRunExtend(solve: Solver, a: Matrix, m: Matrix, n: nat, t: real, e: PlateEdges, steps: nat,
                               front: seq<Plate>, q: Plate)
    requires Sound(solve) && IsSquare(m, n) && n >= 1 && steps >= 1
    requires ImplicitPlateRun(solve, a, m, n, t, e, steps - 1) == Ok(front)
    requires ImplicitPlateStep(solve, a, m, front[steps - 1], e, n) == Ok(q)
    ensures ImplicitPlateRun(solve, a, m, n, t, e, steps) == Ok(front + [q])
  {
  }

  /** A series of plates is the successful run of its length. */
  lemma {:induction false} ImplicitPlateSeriesIsRun(solve: Solver, a: Matrix, m: Matrix, n: nat, t: real, e: PlateEdges, s: seq<Plate>, steps: nat)
    requires Sound(solve) && IsSquare(m, n) && n >= 1 && ImplicitPlateSeries(solve, a, m, n, t, e, s) && |s| == steps + 1
    ensures ImplicitPlateRun(solve, a, m, n, t, e, steps) == Ok(s)
    decreases steps
  {
    if steps > 0 {
      var front := s[..steps];
      assert forall k :: 0 <= k < |front| ==> front[k] == s[k];
      ImplicitPlateSeriesIsRun(solve, a, m, n, t, e, front, steps - 1);
      ImplicitPlateRunExtend(solve, a, m, n, t, e, steps, front, s[steps]);
      assert front + [s[steps]] == s;
    } else {
      assert s == [s[0]];
    }
  }

  /** A series whose next step fails makes every longer run fail. */
  lemma ImplicitPlateSeriesFails(solve: Solver, a: Matrix, m: Matrix, n: nat, t: real, e: PlateEdges, s: seq<Plate>, steps: nat)
    requires Sound(solve) && IsSquare(m, n) && n >= 1 && ImplicitPlateSeries(solve, a, m, n, t, e, s)
    requires ImplicitPlateStep(solve, a, m, s[|s| - 1], e, n).Err? && |s| - 1 < steps
    ensures ImplicitPlateRun(solve, a, m, n, t, e, steps) == Err(SingularMatrix)
  {
    ImplicitPlateSeriesIsRun(solve, a, m, n, t, e, s, |s| - 1);
    ImplicitPlateRunFails(solve, a, m, n, t, e, steps, |s|);
  }

  /** A successful implicit plate step yields a plate that holds the four edge profiles. */
  lemma ImplicitPlateStepEdges(solve: Solver, a: Matrix, m: Matrix, p: Plate, e: PlateEdges, n: nat)
    requires Sound(solve) && IsSquare(m, n) && IsSquare(p, n) && n >= 2
    requires ImplicitPlateStep(solve, a, m, p, e, n).Ok?
    ensures HoldsEdges(ImplicitPlateStep(solve, a, m, p, e, n).value, e, n)
  {
    var c := ColumnSweep(solve, a, m, p, n).value;
    ImposeEdgesHolds(RowSweep(solve, a, m, c, n).value, e, n);
  }

  /** Plate k of a successful implicit run holds the four edge profiles. */
  lemma ImplicitPlateRunEdgesAt(solve: Solver, a: Matrix, m: Matrix, n: nat, t: real, e: PlateEdges, steps: nat, k: nat)
    requires Sound(solve) && IsSquare(m, n) && n >= 2 && k <= steps && ImplicitPlateRun(solve, a, m, n, t, e, steps).Ok?
    ensures HoldsEdges(ImplicitPlateRun(solve, a, m, n, t, e, steps).value[k], e, n)
  {
    var s := ImplicitPlateRun(solve, a, m, n, t, e, steps).value;
    if k == 0 {
      ImplicitPlateRunPrefix(solve, a, m, n, t, e, steps, 0);
      assert s[0] == s[..1][0];
      ImposeEdgesHolds(UniformPlate(n, t), e, n);
    } else {
      ImplicitPlateRunStep(solve, a, m, n, t, e, steps, k - 1);
      ImplicitPlateStepEdges(solve, a, m, s[k - 1], e, n);
    }
  }

  /** Every plate of a successful implicit run, the initial one included, holds the four edge profiles. */
  lemma ImplicitPlateRunEdges(solve: Solver, a: Matrix, m: Matrix, n: nat, t: real, e: PlateEdges, steps: nat)
    requires Sound(solve) && IsSquare(m, n) && n >= 2 && ImplicitPlateRun(solve, a, m, n, t, e, steps).Ok?
    ensures forall k :: 0 <= k <= steps ==> HoldsEdges(ImplicitPlateRun(solve, a, m, n, t, e, steps).value[k], e, n)
  {
    forall k | 0 <= k <= steps
      ensures HoldsEdges(ImplicitPlateRun(solve, a, m, n, t, e, steps).value[k], e, n)
    {
      ImplicitPlateRunEdgesAt(solve, a, m, n, t, e, steps, k);
    }
  }

  /** The column sweep as the source runs it: one solve per column, written into column j of T_col. */
  method SweepColumns(solve: Solver, matA: Matrix, matM: Matrix, before: Plate, n: nat)
    returns (res: Result<Plate>)
    requires Sound(solve) && IsSquare(matM, n) && IsSquare(before, n)
    ensures res == ColumnSweep(solve, matA, matM, before, n)
  {
    var tcol := new real[n, n]((i, j) => 0.0);
    ghost var columns := Transpose(before, n);
    ghost var cols: seq<Vector> := [];
    for j := 0 to n
      invariant SolveEach(solve, matA, matM, columns[..j], n) == Ok(cols)
      invariant forall i', j' :: 0 <= i' < n && 0 <= j' < j ==> |cols[j']| == n && tcol[i', j'] == cols[j'][i']
    {
      var x := SolveSystem(solve, matA, MatVec(matM, Column(before, j, n)));
      assert columns[j] == Column(before, j, n);
      if x.Err? {
        assert SolveEach(solve, matA, matM, columns, n).Err?;
        return Err(x.error);
      }
      SetColumn(tcol, j, x.value);
      assert columns[..j + 1][..j] == columns[..j];
      cols := cols + [x.value];
    }
    assert columns[..n] == columns;
    res := Ok(Snapshot(tcol));
    PlateExtensionality(res.value, Transpose(cols, n), n);
  }

  /** The row sweep as the source runs it: one solve per row of T_col, written into row i of T_ligne. */
  method SweepRows(solve: Solver, matA: Matrix, matM: Matrix, c: Plate, n: nat)
    returns (ok: bool, tline: array2<real>)
    requires Sound(solve) && IsSquare(matM, n) && IsSquare(c, n)
    ensures fresh(tline) && tline.Length0 == n && tline.Length1 == n
    ensures ok == RowSweep(solve, matA, matM, c, n).Ok?
    ensures ok ==> Snapshot(tline) == RowSweep(solve, matA, matM, c, n).value
  {
    tline := new real[n, n]((i, j) => 0.0);
    ghost var rows: seq<Vector> := [];
    for i := 0 to n
      invariant SolveEach(solve, matA, matM, c[..i], n) == Ok(rows)
      invariant forall i', j' :: 0 <= i' < i && 0 <= j' < n ==> |rows[i']| == n && tline[i', j'] == rows[i'][j']
    {
      var x := SolveSystem(solve, matA, MatVec(matM, c[i]));
      if x.Err? {
        assert SolveEach(solve, matA, matM, c, n).Err?;
        return false, tline;
      }
      SetRow(tline, i, x.value);
      assert c[..i + 1][..i] == c[..i];
      rows := rows + [x.value];
    }
    assert c[..n] == c;
    PlateExtensionality(Snapshot(tline), rows, n);
    ok := true;
  }

  /** One pass of the plate loop: the column sweep, the row sweep, then the edges written over T_ligne. */
  method ImplicitPlateUpdate(solve: Solver, matA: Matrix, matM: Matrix, before: Plate, e: PlateEdges, n: nat)
    returns (res: Result<Plate>)
    requires Sound(solve) && IsSquare(matM, n) && IsSquare(before, n) && n >= 1
    ensures res == ImplicitPlateStep(solve, matA, matM, before, e, n)
  {
    var c := SweepColumns(solve, matA, matM, before, n);
    if c.Err? {
      return Err(c.error);
    }
    var ok, tline := SweepRows(solve, matA, matM, c.value, n);
    if !ok {
      return Err(SingularMatrix);
    }
    ghost var rows := Snapshot(tline);
    ImposeEdgesInPlace(tline, e, n - 1);
    res := Ok(Snapshot(tline));
    PlateExtensionality(res.value, ImposeEdges(rows, e, n, n - 1), n);
  }

  /** The tridiagonal sweep matrix, built in an array and read back. */
  method PlateSystemMatrix(n: nat, c1: real, c2: real) returns (m: Matrix)
    ensures m == Tridiagonal(n, c1, c2)
  {
    var a := TridiagonalMatrix(n, c1, c2);
    TridiagonalSnapshot(a, n, c1, c2);
    m := Snapshot(a);
  }

  /** The time loop of `EulerImplicite` on a plate, for given sweep matrices. */
  method ImplicitPlateLoop(solve: Solver, matA: Matrix, matM: Matrix, n: nat, nt: nat, t: real, e: PlateEdges)
    returns (res: Result<seq<Plate>>)
    requires Sound(solve) && IsSquare(matM, n) && n >= 2 && nt >= 1
    ensures res == ImplicitPlateRun(solve, matA, matM, n, t, e, nt - 1)
  {
    var first := NewPlate(n, t, e, n - 1);
    var tfs := [first];
    for k := 0 to nt - 1
      invariant |tfs| == k + 1
      invariant ImplicitPlateSeries(solve, matA, matM, n, t, e, tfs)
    {
      var next := ImplicitPlateUpdate(solve, matA, matM, tfs[k], e, n);
      if next.Err? {
        ImplicitPlateSeriesFails(solve, matA, matM, n, t, e, tfs, nt - 1);
        return Err(SingularMatrix);
      }
      ImplicitPlateSeriesExtend(solve, matA, matM, n, t, e, tfs, next.value);
      tfs := tfs + [next.value];
    }
    ImplicitPlateSeriesIsRun(solve, matA, matM, n, t, e, tfs, nt - 1);
    res := Ok(tfs);
  }

  /**
    `EulerImplicite` on a plate: the full series of `nt` plates under the
    Crank–Nicolson sweep matrices, or the solver's failure.
  */
  method EulerImplicitPlate(solve: Solver, n: nat, nt: nat, r: real, t: real, e: PlateEdges)
    returns (res: Result<seq<Plate>>)
    requires Sound(solve) && n >= 2 && nt >= 1
    ensures res == ImplicitPlateRun(solve, Tridiagonal(n, 2.0 + 2.0 * r, -r), Tridiagonal(n, 2.0 - 2.0 * r, r), n, t, e, nt - 1)
  {
    var matA := Tridiagonal(n, 2.0 + 2.0 * r, -r);
    var matM := Tridiagonal(n, 2.0 - 2.0 * r, r);
    res := ImplicitPlateLoop(solve, matA, matM, n, nt, t, e);
  }
}
