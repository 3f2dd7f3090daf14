/**
  Temperature fields and their Dirichlet edges: a bar is one row of
  temperatures, a plate a square grid of rows.  Each plate edge is held at a
  uniform value or at a linear gradient between two end values.
*/
module Fields {
  import opened Basics
  import opened LinearAlgebra

  type Bar = seq<real>
  type Plate = seq<seq<real>>

  /** One edge condition: a single value, or a pair of end values joined linearly. */
  datatype Boundary = Uniform(value: real) | Gradient(first: real, last: real)

  /**
    The four edge conditions of a plate, named as the source names them:
    `right` (Td) is imposed on row 0, `left` (Tg) on the last row, `top` (Th)
    on column 0 and `bottom` (Tb) on a column chosen by the caller.
  */
  datatype PlateEdges = PlateEdges(bottom: Boundary, top: Boundary, left: Boundary, right: Boundary)

  /** `np.linspace(a, b, n)`: n evenly spaced points, the first a and, for n >= 2, the last b. */
  function Linspace(a: real, b: real, n: nat): (s: seq<real>)
    ensures |s| == n
    ensures n >= 1 ==> s[0] == a
    ensures n >= 2 ==> s[n - 1] == b
  {
    if n == 1 then [a]
    else
      var step := if n == 0 then 0.0 else (b - a) / (n - 1) as real;
      assert n >= 2 ==> (n - 1) as real * step == b - a;
      seq(n, k requires 0 <= k < n => a + k as real * step)
  }

  /** Every point of a linspace lies between its two ends. */
  lemma LinspaceBetween(a: real, b: real, n: nat, k: nat)
    requires k < n
    ensures a <= b ==> a <= Linspace(a, b, n)[k] <= b
    ensures b <= a ==> b <= Linspace(a, b, n)[k] <= a
  {
    if n >= 2 {
      var d := (n - 1) as real;
      var t := k as real / d;
      assert 0.0 <= t <= 1.0;
      assert Linspace(a, b, n)[k] == a + t * (b - a);
      if a <= b {
        NonNegativeProduct(1.0 - t, b - a);
        NonNegativeProduct(t, b - a);
      } else {
        NonNegativeProduct(1.0 - t, a - b);
        NonNegativeProduct(t, a - b);
      }
    }
  }

  /** The edge values of a boundary along n cells: a constant row or a linspace. */
  function Profile(b: Boundary, n: nat): (p: seq<real>)
    ensures |p| == n
  {
    match b
    case Uniform(v) => seq(n, _ => v)
    case Gradient(first, last) => Linspace(first, last, n)
  }

  /** A gradient profile starts at its first value and ends at its second; a uniform one is constant. */
  lemma ProfileEnds(b: Boundary, n: nat)
    requires n >= 2
    ensures b.Gradient? ==> Profile(b, n)[0] == b.first && Profile(b, n)[n - 1] == b.last
    ensures b.Uniform? ==> forall k :: 0 <= k < n ==> Profile(b, n)[k] == b.value
  {
  }

  /** The smallest and largest value a boundary ever imposes. */
  function BoundaryMin(b: Boundary): real {
    match b
    case Uniform(v) => v
    case Gradient(first, last) => if first <= last then first else last
  }

  function BoundaryMax(b: Boundary): real {
    match b
    case Uniform(v) => v
    case Gradient(first, last) => if first <= last then last else first
  }

  lemma ProfileWithin(b: Boundary, n: nat, k: nat)
    requires k < n
    ensures BoundaryMin(b) <= Profile(b, n)[k] <= BoundaryMax(b)
  {
    if b.Gradient? {
      LinspaceBetween(b.first, b.last, n, k);
    }
  }

  /** The initial bar: `t` everywhere, then `left` written at index 0 and `right` at the last index. */
  function InitialBar(n: nat, t: real, left: real, right: real): Bar {
    seq(n, i => if i == n - 1 then right else if i == 0 then left else t)
  }

  /** The plate held at `t` everywhere. */
  function UniformPlate(n: nat, t: real): (g: Plate)
    ensures IsSquare(g, n)
  {
    seq(n, i => seq(n, j => t))
  }

  /**
    The value of cell (i, j) after the four edge writes, in the source's
    order: row 0, last row, column 0, column `bottomColumn`.  A later write
    wins, so the columns own the corners.
  */
  function EdgeCell(e: PlateEdges, n: nat, bottomColumn: nat, i: nat, j: nat, inner: real): real
    requires i < n && j < n
  {
    if j == bottomColumn then Profile(e.bottom, n)[i]
    else if j == 0 then Profile(e.top, n)[i]
    else if i == n - 1 then Profile(e.left, n)[j]
    else if i == 0 then Profile(e.right, n)[j]
    else inner
  }

  function ImposeEdges(g: Plate, e: PlateEdges, n: nat, bottomColumn: nat): (h: Plate)
    requires IsSquare(g, n)
    ensures IsSquare(h, n)
  {
    seq(n, i requires 0 <= i < n => seq(n, j requires 0 <= j < n => EdgeCell(e, n, bottomColumn, i, j, g[i][j])))
  }

  /** The initial plate: uniform `t` with the four edges written over it. */
  function InitialPlate(n: nat, t: real, e: PlateEdges, bottomColumn: nat): (g: Plate)
    ensures IsSquare(g, n)
  {
    ImposeEdges(UniformPlate(n, t), e, n, bottomColumn)
  }

  /**
    The Dirichlet condition on a plate: column 0 carries the top profile and
    the last column the bottom profile in full (corners included); row 0
    carries the right profile and the last row the left profile between the
    corners.
  */
  ghost predicate HoldsEdges(g: Plate, e: PlateEdges, n: nat)
    requires IsSquare(g, n)
  {
    && (forall i :: 0 <= i < n ==> g[i][0] == Profile(e.top, n)[i] && g[i][n - 1] == Profile(e.bottom, n)[i])
    && (forall j :: 0 < j < n - 1 ==> g[0][j] == Profile(e.right, n)[j] && g[n - 1][j] == Profile(e.left, n)[j])
  }

  /** Writing the edges with the bottom profile on the last column establishes the condition and keeps the interior. */
  lemma ImposeEdgesHolds(g: Plate, e: PlateEdges, n: nat)
    requires IsSquare(g, n) && n >= 2
    ensures HoldsEdges(ImposeEdges(g, e, n, n - 1), e, n)
    ensures forall i, j :: 0 < i < n - 1 && 0 < j < n - 1 ==> ImposeEdges(g, e, n, n - 1)[i][j] == g[i][j]
  {
  }

  /** `a[i, :] = v`. */
  method SetRow(a: array2<real>, i: nat, v: seq<real>)
    requires i < a.Length0 && |v| == a.Length1
    modifies a
    ensures forall i', j' :: 0 <= i' < a.Length0 && 0 <= j' < a.Length1 ==>
      a[i', j'] == if i' == i then v[j'] else old(a[i', j'])
  {
    for j := 0 to a.Length1
      invariant forall i', j' :: 0 <= i' < a.Length0 && 0 <= j' < a.Length1 ==>
        a[i', j'] == if i' == i && j' < j then v[j'] else old(a[i', j'])
    {
      a[i, j] := v[j];
    }
  }

  /** `a[:, j] = v`. */
  method SetColumn(a: array2<real>, j: nat, v: seq<real>)
    requires j < a.Length1 && |v| == a.Length0
    modifies a
    ensures forall i', j' :: 0 <= i' < a.Length0 && 0 <= j' < a.Length1 ==>
      a[i', j'] == if j' == j then v[i'] else old(a[i', j'])
  {
    for i := 0 to a.Length0
      invariant forall i', j' :: 0 <= i' < a.Length0 && 0 <= j' < a.Length1 ==>
        a[i', j'] == if j' == j && i' < i then v[i'] else old(a[i', j'])
    {
      a[i, j] := v[i];
    }
  }

  /** The four edge writes of the source, in its order, on a square array. */
  method ImposeEdgesInPlace(a: array2<real>, e: PlateEdges, bottomColumn: nat)
    requires a.Length0 == a.Length1 && bottomColumn < a.Length0
    modifies a
    ensures forall i, j :: 0 <= i < a.Length0 && 0 <= j < a.Length0 ==>
      a[i, j] == EdgeCell(e, a.Length0, bottomColumn, i, j, old(a[i, j]))
  {
    var n := a.Length0;
    SetRow(a, 0, Profile(e.right, n));
    SetRow(a, n - 1, Profile(e.left, n));
    SetColumn(a, 0, Profile(e.top, n));
    SetColumn(a, bottomColumn, Profile(e.bottom, n));
  }

  /** Two square plates with the same cells are equal. */
  lemma PlateExtensionality(g: Plate, h: Plate, n: nat)
    requires IsSquare(g, n) && IsSquare(h, n)
    requires forall i, j :: 0 <= i < n && 0 <= j < n ==> g[i][j] == h[i][j]
    ensures g == h
  {
    forall i | 0 <= i < n
      ensures g[i] == h[i]
    {
      assert forall j :: 0 <= j < n ==> g[i][j] == h[i][j];
    }
  }

  /** `np.full(Nx, T)` with `left` written at index 0 and `right` at the last index. */
  method NewBar(n: nat, t: real, left: real, right: real) returns (b: Bar)
    requires n >= 1
    ensures b == InitialBar(n, t, left, right)
  {
    var cells := new real[n](_ => t);
    cells[0] := left;
    cells[n - 1] := right;
    b := cells[..];
  }

  /** `np.full((Nx, Nx), T)` with the four edges written over it, `bottom` on column `bottomColumn`. */
  method NewPlate(n: nat, t: real, e: PlateEdges, bottomColumn: nat) returns (g: Plate)
    requires bottomColumn < n
    ensures g == InitialPlate(n, t, e, bottomColumn)
  {
    var cells := new real[n, n]((i, j) => t);
    ImposeEdgesInPlace(cells, e, bottomColumn);
    g := Snapshot(cells);
    PlateExtensionality(g, InitialPlate(n, t, e, bottomColumn), n);
  }
}
