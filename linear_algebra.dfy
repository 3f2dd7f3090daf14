/**
  Dense matrices and vectors over the reals: the zero-filled diagonal and
  tridiagonal builders, the matrix-vector product, and the linear solve,
  which is an external numeric routine and is therefore a parameter whose
  only known property is that a solution it returns satisfies A·x = b.
*/
module LinearAlgebra {
  import opened Basics

  type Vector = seq<real>
  type Matrix = seq<seq<real>>

  predicate IsSquare(m: Matrix, n: nat) {
    |m| == n && forall i :: 0 <= i < n ==> |m[i]| == n
  }

  /** Entry (i, j) of the constant-coefficient tridiagonal matrix. */
  function TridiagonalEntry(c1: real, c2: real, i: int, j: int): real {
    if i == j then c1 else if i - j == 1 || j - i == 1 then c2 else 0.0
  }

  /** The n × n tridiagonal matrix with `c1` on the diagonal and `c2` beside it, as a value. */
  function Tridiagonal(n: nat, c1: real, c2: real): (m: Matrix)
    ensures IsSquare(m, n)
  {
    seq(n, i => seq(n, j => TridiagonalEntry(c1, c2, i, j)))
  }

  /** The tridiagonal matrix equals its transpose. */
  lemma TridiagonalSymmetric(n: nat, c1: real, c2: real, i: nat, j: nat)
    requires i < n && j < n
    ensures Tridiagonal(n, c1, c2)[i][j] == Tridiagonal(n, c1, c2)[j][i]
  {
  }

  /** The current contents of a two-dimensional array, row by row. */
  function Snapshot(a: array2<real>): (m: Matrix)
    reads a
    ensures |m| == a.Length0
    ensures forall i :: 0 <= i < a.Length0 ==> |m[i]| == a.Length1
    ensures forall i, j :: 0 <= i < a.Length0 && 0 <= j < a.Length1 ==> m[i][j] == a[i, j]
  {
    seq(a.Length0, i requires 0 <= i < a.Length0 reads a =>
      seq(a.Length1, j requires 0 <= j < a.Length1 reads a => a[i, j]))
  }

  /** A zero matrix whose diagonal is then filled with `value`. */
  method DiagonalMatrix(size: nat, value: real) returns (m: array2<real>)
    ensures fresh(m) && m.Length0 == size && m.Length1 == size
    ensures forall i :: 0 <= i < size ==> m[i, i] == value
    ensures forall i, j :: 0 <= i < size && 0 <= j < size && i != j ==> m[i, j] == 0.0
  {
    m := new real[size, size]((i, j) => 0.0);
    for k := 0 to size
      invariant forall i, j :: 0 <= i < size && 0 <= j < size ==>
        m[i, j] == (if i == j && i < k then value else 0.0)
    {
      m[k, k] := value;
    }
  }

  /** A zero matrix whose diagonal is filled with `c1`, then its super- and sub-diagonals with `c2`. */
  method TridiagonalMatrix(n: nat, c1: real, c2: real) returns (m: array2<real>)
    ensures fresh(m) && m.Length0 == n && m.Length1 == n
    ensures forall i :: 0 <= i < n ==> m[i, i] == c1
    ensures forall i, j :: 0 <= i < n && 0 <= j < n && (i - j == 1 || j - i == 1) ==> m[i, j] == c2
    ensures forall i, j :: 0 <= i < n && 0 <= j < n && (i - j > 1 || j - i > 1) ==> m[i, j] == 0.0
  {
    m := new real[n, n]((i, j) => 0.0);
    for k := 0 to n
      invariant forall i, j :: 0 <= i < n && 0 <= j < n ==>
        m[i, j] == (if i == j && i < k then c1 else 0.0)
    {
      m[k, k] := c1;
    }
    var offDiagonal := if n == 0 then 0 else n - 1;
    for k := 0 to offDiagonal
      invariant forall i, j :: 0 <= i < n && 0 <= j < n ==>
        m[i, j] == (if i == j then c1 else if j == i + 1 && i < k then c2 else 0.0)
    {
      m[k, k + 1] := c2;
    }
    for k := 0 to offDiagonal
      invariant forall i, j :: 0 <= i < n && 0 <= j < n ==>
        m[i, j] == (if i == j then c1 else if j == i + 1 || (i == j + 1 && j < k) then c2 else 0.0)
    {
      m[k + 1, k] := c2;
    }
  }

  /** The array built by TridiagonalMatrix holds the value Tridiagonal. */
  lemma TridiagonalSnapshot(m: array2<real>, n: nat, c1: real, c2: real)
    requires m.Length0 == n && m.Length1 == n
    requires forall i :: 0 <= i < n ==> m[i, i] == c1
    requires forall i, j :: 0 <= i < n && 0 <= j < n && (i - j == 1 || j - i == 1) ==> m[i, j] == c2
    requires forall i, j :: 0 <= i < n && 0 <= j < n && (i - j > 1 || j - i > 1) ==> m[i, j] == 0.0
    ensures Snapshot(m) == Tridiagonal(n, c1, c2)
  {
    var s, t := Snapshot(m), Tridiagonal(n, c1, c2);
    forall i | 0 <= i < n
      ensures s[i] == t[i]
    {
      forall j | 0 <= j < n
        ensures s[i][j] == t[i][j]
      {
      }
    }
  }

  /** The partial dot product of u and v over the indices lo .. hi-1. */
  function Sum(u: Vector, v: Vector, lo: nat, hi: nat): real
    requires lo <= hi <= |u| && |u| == |v|
    decreases hi - lo
  {
    if lo == hi then 0.0 else Sum(u, v, lo, hi - 1) + u[hi - 1] * v[hi - 1]
  }

  function Dot(u: Vector, v: Vector): real
    requires |u| == |v|
  {
    Sum(u, v, 0, |u|)
  }

  /** `np.dot(M, x)` for a square M. */
  function MatVec(m: Matrix, x: Vector): (b: Vector)
    requires IsSquare(m, |x|)
    ensures |b| == |x|
  {
    seq(|x|, i requires 0 <= i < |x| => Dot(m[i], x))
  }

  lemma {:induction false} SumSplit(u: Vector, v: Vector, lo: nat, mid: nat, hi: nat)
    requires lo <= mid <= hi <= |u| && |u| == |v|
    ensures Sum(u, v, lo, hi) == Sum(u, v, lo, mid) + Sum(u, v, mid, hi)
    decreases hi
  {
    if hi > mid {
      SumSplit(u, v, lo, mid, hi - 1);
    }
  }

  lemma {:induction false} SumOfZeros(u: Vector, v: Vector, lo: nat, hi: nat)
    requires lo <= hi <= |u| && |u| == |v|
    requires forall j :: lo <= j < hi ==> u[j] == 0.0
    ensures Sum(u, v, lo, hi) == 0.0
    decreases hi - lo
  {
    if lo < hi {
      SumOfZeros(u, v, lo, hi - 1);
    }
  }

  /** A unit row, 1 in column k and 0 elsewhere, picks out x[k]. */
  lemma DotUnitRow(u: Vector, x: Vector, k: nat)
    requires |u| == |x| && k < |u|
    requires u[k] == 1.0
    requires forall j :: 0 <= j < |u| && j != k ==> u[j] == 0.0
    ensures Dot(u, x) == x[k]
  {
    SumSplit(u, x, 0, k, |u|);
    SumSplit(u, x, k, k + 1, |u|);
    SumOfZeros(u, x, 0, k);
    SumOfZeros(u, x, k + 1, |u|);
  }

  /** A row that vanishes outside columns i-1, i, i+1 gives the three-point combination. */
  lemma DotBandRow(u: Vector, x: Vector, i: nat)
    requires |u| == |x| && 1 <= i < |u| - 1
    requires forall j :: 0 <= j < |u| && (j < i - 1 || j > i + 1) ==> u[j] == 0.0
    ensures Dot(u, x) == u[i - 1] * x[i - 1] + u[i] * x[i] + u[i + 1] * x[i + 1]
  {
    SumSplit(u, x, 0, i - 1, |u|);
    SumSplit(u, x, i - 1, i + 2, |u|);
    SumOfZeros(u, x, 0, i - 1);
    SumOfZeros(u, x, i + 2, |u|);
    assert Sum(u, x, i - 1, i - 1) == 0.0;
    assert Sum(u, x, i - 1, i) == u[i - 1] * x[i - 1];
    assert Sum(u, x, i - 1, i + 1) == u[i - 1] * x[i - 1] + u[i] * x[i];
  }

  /** The external dense solver: `None` stands for a singular or ill-conditioned matrix. */
  type Solver = (Matrix, Vector) -> Option<Vector>

  ghost predicate Solves(a: Matrix, b: Vector, x: Option<Vector>) {
    x.Some? ==> IsSquare(a, |b|) && |x.value| == |b| && MatVec(a, x.value) == b
  }

  /** The solver's postcondition: whatever it returns solves the system. */
  ghost predicate Sound(solve: Solver) {
    forall a, b {:trigger Solves(a, b, solve(a, b))} :: Solves(a, b, solve(a, b))
  }

  /** `resoudre_equation_matricielle`: the solve, with a failure reported as a singular matrix. */
  function SolveSystem(solve: Solver, a: Matrix, b: Vector): (x: Result<Vector>)
    requires Sound(solve)
    ensures x.Err? ==> x.error == SingularMatrix
    ensures x.Ok? ==> IsSquare(a, |b|) && |x.value| == |b| && MatVec(a, x.value) == b
  {
    assert Solves(a, b, solve(a, b));
    match solve(a, b)
    case None => Err(SingularMatrix)
    case Some(v) => Ok(v)
  }
}
