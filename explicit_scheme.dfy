/**
  The forward-Euler (explicit) scheme: each new field is the previous one
  updated by the three-point (bar) or five-point (plate) stencil inside, with
  the Dirichlet edges written again after every step.
*/
module ExplicitScheme {
  import opened Basics
  import opened LinearAlgebra
  import opened Fields

  // ---------------------------------------------------------------- bar

  /** The three-point update of interior cell i. */
  function BarStencil(p: Bar, r: real, i: nat): real
    requires 1 <= i < |p| - 1
  {
    p[i] + r * (p[i - 1] - 2.0 * p[i] + p[i + 1])
  }

  /** One explicit step on a bar: interior cells by the stencil, then both ends written again. */
  function ExplicitBarStep(p: Bar, r: real, left: real, right: real): (q: Bar)
    ensures |q| == |p|
  {
    seq(|p|, i requires 0 <= i < |p| =>
      if i == |p| - 1 then right else if i == 0 then left else BarStencil(p, r, i))
  }

  /** The series of bars after `steps` explicit steps from the initial bar. */
  function ExplicitBarRun(n: nat, r: real, t: real, left: real, right: real, steps: nat): (s: seq<Bar>)
    ensures |s| == steps + 1
    ensures forall k :: 0 <= k < |s| ==> |s[k]| == n
    decreases steps
  {
    if steps == 0 then [InitialBar(n, t, left, right)]
    else
      var s := ExplicitBarRun(n, r, t, left, right, steps - 1);
      s + [ExplicitBarStep(s[steps - 1], r, left, right)]
  }

  lemma {:induction false} ExplicitBarRunPrefix(n: nat, r: real, t: real, left: real, right: real, steps: nat, m: nat)
    requires m <= steps
    ensures ExplicitBarRun(n, r, t, left, right, steps)[..m + 1] == ExplicitBarRun(n, r, t, left, right, m)
    decreases steps
  {
    if m < steps {
      ExplicitBarRunPrefix(n, r, t, left, right, steps - 1, m);
    }
  }

  /** Grid 0 is the initial bar and grid k+1 is one explicit step from grid k. */
  lemma ExplicitBarRunSteps(n: nat, r: real, t: real, left: real, right: real, steps: nat)
    ensures ExplicitBarRun(n, r, t, left, right, steps)[0] == InitialBar(n, t, left, right)
    ensures forall k :: 0 <= k < steps ==>
      ExplicitBarRun(n, r, t, left, right, steps)[k + 1] == ExplicitBarStep(ExplicitBarRun(n, r, t, left, right, steps)[k], r, left, right)
  {
    var s := ExplicitBarRun(n, r, t, left, right, steps);
    ExplicitBarRunPrefix(n, r, t, left, right, steps, 0);
    forall k | 0 <= k < steps
      ensures s[k + 1] == ExplicitBarStep(s[k], r, left, right)
    {
      ExplicitBarRunPrefix(n, r, t, left, right, steps, k + 1);
      ExplicitBarRunPrefix(n, r, t, left, right, k + 1, k);
      assert s[k] == s[..k + 2][k];
    }
  }

  /** Every bar of the series keeps `left` at index 0 and `right` at the last index. */
  lemma ExplicitBarRunEdges(n: nat, r: real, t: real, left: real, right: real, steps: nat)
    requires n >= 2
    ensures forall k :: 0 <= k <= steps ==>
      ExplicitBarRun(n, r, t, left, right, steps)[k][0] == left &&
      ExplicitBarRun(n, r, t, left, right, steps)[k][n - 1] == right
  {
    ExplicitBarRunSteps(n, r, t, left, right, steps);
    var s := ExplicitBarRun(n, r, t, left, right, steps);
    forall k | 0 <= k <= steps
      ensures s[k][0] == left && s[k][n - 1] == right
    {
      if k > 0 {
        assert s[k] == ExplicitBarStep(s[k - 1], r, left, right);
      }
    }
  }

  predicate Within(g: seq<real>, lo: real, hi: real) {
    forall i :: 0 <= i < |g| ==> lo <= g[i] <= hi
  }

  /** With 0 <= r <= 1/2 the three-point update is a convex combination of its three inputs. */
  lemma BarStencilWithin(a: real, c: real, b: real, r: real, lo: real, hi: real)
    requires 0.0 <= r <= 0.5
    requires lo <= a <= hi && lo <= c <= hi && lo <= b <= hi
    ensures lo <= c + r * (a - 2.0 * c + b) <= hi
  {
    NonNegativeProduct(r, a - lo);
    NonNegativeProduct(r, b - lo);
    NonNegativeProduct(1.0 - 2.0 * r, c - lo);
    NonNegativeProduct(r, hi - a);
    NonNegativeProduct(r, hi - b);
    NonNegativeProduct(1.0 - 2.0 * r, hi - c);
  }

  lemma ExplicitBarStepWithin(p: Bar, r: real, left: real, right: real, lo: real, hi: real)
    requires 0.0 <= r <= 0.5
    requires Within(p, lo, hi) && lo <= left <= hi && lo <= right <= hi
    ensures Within(ExplicitBarStep(p, r, left, right), lo, hi)
  {
    var q := ExplicitBarStep(p, r, left, right);
    forall i | 0 <= i < |q|
      ensures lo <= q[i] <= hi
    {
      if 0 < i < |p| - 1 {
        BarStencilWithin(p[i - 1], p[i], p[i + 1], r, lo, hi);
      }
    }
  }

  function Min3(a: real, b: real, c: real): real {
    if a <= b && a <= c then a else if b <= c then b else c
  }

  function Max3(a: real, b: real, c: real): real {
    if a >= b && a >= c then a else if b >= c then b else c
  }

  /**
    Stability of the explicit bar scheme when 0 <= r <= 1/2: no temperature of
    any step leaves the range spanned by the initial value and the two ends.
  */
  lemma {:induction false} ExplicitBarRunWithin(n: nat, r: real, t: real, left: real, right: real, steps: nat)
    requires 0.0 <= r <= 0.5
    ensures forall k :: 0 <= k <= steps ==>
      Within(ExplicitBarRun(n, r, t, left, right, steps)[k], Min3(t, left, right), Max3(t, left, right))
    decreases steps
  {
    var lo, hi := Min3(t, left, right), Max3(t, left, right);
    var s := ExplicitBarRun(n, r, t, left, right, steps);
    if steps == 0 {
      assert Within(InitialBar(n, t, left, right), lo, hi);
    } else {
      ExplicitBarRunWithin(n, r, t, left, right, steps - 1);
      var prev := ExplicitBarRun(n, r, t, left, right, steps - 1);
      assert forall k :: 0 <= k < steps ==> s[k] == prev[k];
      ExplicitBarStepWithin(prev[steps - 1], r, left, right, lo, hi);
    }
  }

  /** One pass of the bar loop: a zero array filled by the stencil inside, then both ends written. */
  method ExplicitBarUpdate(before: Bar, r: real, left: real, right: real) returns (after: Bar)
    requires |before| >= 2
    ensures after == ExplicitBarStep(before, r, left, right)
  {
    var n := |before|;
    var now := new real[n](_ => 0.0);
    for i := 1 to n - 1
      invariant forall i' :: 1 <= i' < i ==> now[i'] == BarStencil(before, r, i')
    {
      now[i] := BarStencil(before, r, i);
    }
    now[0] := left;
    now[n - 1] := right;
    after := now[..];
  }

  /** `EulerExplicite` on a bar: the full series of `nt` bars. */
  method EulerExplicitBar(n: nat, nt: nat, r: real, t: real, left: real, right: real) returns (tfs: seq<Bar>)
    requires n >= 2 && nt >= 1
    ensures tfs == ExplicitBarRun(n, r, t, left, right, nt - 1)
  {
    var first := NewBar(n, t, left, right);
    tfs := [first];
    for k := 0 to nt - 1
      invariant tfs == ExplicitBarRun(n, r, t, left, right, k)
    {
      var now := ExplicitBarUpdate(tfs[|tfs| - 1], r, left, right);
      tfs := tfs + [now];
    }
  }

  // -------------------------------------------------------------- plate

  /** The five-point update of interior cell (i, j). */
  function PlateStencil(p: Plate, r: real, i: nat, j: nat): real
    requires IsSquare(p, |p|) && 1 <= i < |p| - 1 && 1 <= j < |p| - 1
  {
    p[i][j]
    + r * (p[i - 1][j] - 2.0 * p[i][j] + p[i + 1][j])
    + r * (p[i][j - 1] - 2.0 * p[i][j] + p[i][j + 1])
  }

  /** The fresh zero field after the interior loop: the stencil inside, zero on the edges. */
  function InteriorUpdate(p: Plate, r: real, n: nat): (q: Plate)
    requires IsSquare(p, n)
    ensures IsSquare(q, n)
  {
    seq(n, i requires 0 <= i < n => seq(n, j requires 0 <= j < n =>
      if 1 <= i < n - 1 && 1 <= j < n - 1 then PlateStencil(p, r, i, j) else 0.0))
  }

  /** One explicit step on a plate: the interior update, then the edges with `bottom` on the last column. */
  function ExplicitPlateStep(p: Plate, r: real, e: PlateEdges, n: nat): (q: Plate)
    requires IsSquare(p, n) && n >= 1
    ensures IsSquare(q, n)
  {
    ImposeEdges(InteriorUpdate(p, r, n), e, n, n - 1)
  }

  /**
    The series of plates after `steps` explicit steps.  The initial plate
    writes `bottom` on column `c`: the source writes it on column 1, while
    every later step writes it on the last column.
  */
  function ExplicitPlateRun(n: nat, r: real, t: real, e: PlateEdges, c: nat, steps: nat): (s: seq<Plate>)
    requires n >= 2
    ensures |s| == steps + 1
    ensures forall k :: 0 <= k < |s| ==> IsSquare(s[k], n)
    decreases steps
  {
    if steps == 0 then [InitialPlate(n, t, e, c)]
    else
      var s := ExplicitPlateRun(n, r, t, e, c, steps - 1);
      s + [ExplicitPlateStep(s[steps - 1], r, e, n)]
  }

  lemma {:induction false} ExplicitPlateRunPrefix(n: nat, r: real, t: real, e: PlateEdges, c: nat, steps: nat, m: nat)
    requires n >= 2 && m <= steps
    ensures ExplicitPlateRun(n, r, t, e, c, steps)[..m + 1] == ExplicitPlateRun(n, r, t, e, c, m)
    decreases steps
  {
    if m < steps {
      ExplicitPlateRunPrefix(n, r, t, e, c, steps - 1, m);
    }
  }

  lemma ExplicitPlateRunStep(n: nat, r: real, t: real, e: PlateEdges, c: nat, steps: nat, k: nat)
    requires n >= 2 && k < steps
    ensures ExplicitPlateRun(n, r, t, e, c, steps)[k + 1] == ExplicitPlateStep(ExplicitPlateRun(n, r, t, e, c, steps)[k], r, e, n)
  {
    var s := ExplicitPlateRun(n, r, t, e, c, steps);
    ExplicitPlateRunPrefix(n, r, t, e, c, steps, k + 1);
    ExplicitPlateRunPrefix(n, r, t, e, c, k + 1, k);
    assert s[k] == s[..k + 2][k];
    assert s[k + 1] == s[..k + 2][k + 1];
  }

  /** Plate 0 is the initial plate and plate k+1 is one explicit step from plate k. */
  lemma ExplicitPlateRunSteps(n: nat, r: real, t: real, e: PlateEdges, c: nat, steps: nat)
    requires n >= 2
    ensures ExplicitPlateRun(n, r, t, e, c, steps)[0] == InitialPlate(n, t, e, c)
    ensures forall k :: 0 <= k < steps ==>
      ExplicitPlateRun(n, r, t, e, c, steps)[k + 1] == ExplicitPlateStep(ExplicitPlateRun(n, r, t, e, c, steps)[k], r, e, n)
  {
    ExplicitPlateRunPrefix(n, r, t, e, c, steps, 0);
    forall k | 0 <= k < steps
      ensures ExplicitPlateRun(n, r, t, e, c, steps)[k + 1] == ExplicitPlateStep(ExplicitPlateRun(n, r, t, e, c, steps)[k], r, e, n)
    {
      ExplicitPlateRunStep(n, r, t, e, c, steps, k);
    }
  }

  /** After every step k >= 1 the four edges hold their profiles, the columns owning the corners. */
  lemma ExplicitPlateRunEdges(n: nat, r: real, t: real, e: PlateEdges, c: nat, steps: nat)
    requires n >= 2
    ensures forall k :: 1 <= k <= steps ==> HoldsEdges(ExplicitPlateRun(n, r, t, e, c, steps)[k], e, n)
  {
    ExplicitPlateRunSteps(n, r, t, e, c, steps);
    var s := ExplicitPlateRun(n, r, t, e, c, steps);
    forall k | 1 <= k <= steps
      ensures HoldsEdges(s[k], e, n)
    {
      ImposeEdgesHolds(InteriorUpdate(s[k - 1], r, n), e, n);
    }
  }

  /**
    The initial plate of the explicit scheme as the source writes it carries
    the bottom profile on column 1, and its last column keeps the initial
    temperature between the corner rows.
  */
  lemma ExplicitInitialPlateColumns(n: nat, t: real, e: PlateEdges)
    requires n >= 3
    ensures forall i :: 0 <= i < n ==> InitialPlate(n, t, e, 1)[i][1] == Profile(e.bottom, n)[i]
    ensures forall i :: 0 < i < n - 1 ==> InitialPlate(n, t, e, 1)[i][n - 1] == t
  {
  }

  /** Every edge held at zero. */
  const ColdEdges := PlateEdges(Uniform(0.0), Uniform(0.0), Uniform(0.0), Uniform(0.0))

  /**
    With the bottom written on column 1, a 3 × 3 plate at 100 with every edge
    at 0 starts with cell (1, 2) of the bottom edge still at 100, so plate 0
    breaks the Dirichlet condition.
  */
  lemma ExplicitInitialPlateBreaksEdges(r: real, steps: nat)
    ensures ExplicitPlateRun(3, r, 100.0, ColdEdges, 1, steps)[0][1][2] == 100.0
    ensures !HoldsEdges(ExplicitPlateRun(3, r, 100.0, ColdEdges, 1, steps)[0], ColdEdges, 3)
  {
    ExplicitPlateRunSteps(3, r, 100.0, ColdEdges, 1, steps);
    assert Profile(ColdEdges.bottom, 3)[1] == 0.0;
  }

  /** With the bottom written on the last column from the start, every plate of the series holds its edges. */
  lemma ExplicitPlateRunHoldsEdges(n: nat, r: real, t: real, e: PlateEdges, c: nat, steps: nat)
    requires n >= 2 && c == n - 1
    ensures forall k :: 0 <= k <= steps ==> HoldsEdges(ExplicitPlateRun(n, r, t, e, c, steps)[k], e, n)
  {
    ExplicitPlateRunSteps(n, r, t, e, c, steps);
    ExplicitPlateRunEdges(n, r, t, e, c, steps);
    ImposeEdgesHolds(UniformPlate(n, t), e, n);
  }

  predicate PlateWithin(g: Plate, lo: real, hi: real) {
    forall i, j :: 0 <= i < |g| && 0 <= j < |g[i]| ==> lo <= g[i][j] <= hi
  }

  function Min(a: real, b: real): real {
    if a <= b then a else b
  }

  function Max(a: real, b: real): real {
    if a >= b then a else b
  }

  /** The lowest of the initial temperature and of every value the edges impose. */
  function PlateFloor(t: real, e: PlateEdges): real {
    Min(Min(t, BoundaryMin(e.bottom)), Min(Min(BoundaryMin(e.top), BoundaryMin(e.left)), BoundaryMin(e.right)))
  }

  /** The highest of the initial temperature and of every value the edges impose. */
  function PlateCeiling(t: real, e: PlateEdges): real {
    Max(Max(t, BoundaryMax(e.bottom)), Max(Max(BoundaryMax(e.top), BoundaryMax(e.left)), BoundaryMax(e.right)))
  }

  /** With 0 <= r <= 1/4 the five-point update is a convex combination of its five inputs. */
  lemma PlateStencilWithin(p: Plate, r: real, i: nat, j: nat, lo: real, hi: real)
    requires IsSquare(p, |p|) && 1 <= i < |p| - 1 && 1 <= j < |p| - 1
    requires 0.0 <= r <= 0.25 && PlateWithin(p, lo, hi)
    ensures lo <= PlateStencil(p, r, i, j)
    ensures PlateStencil(p, r, i, j) <= hi
  {
    var c, a1, a2, b1, b2 := p[i][j], p[i - 1][j], p[i + 1][j], p[i][j - 1], p[i][j + 1];
    // the five-point update is the mean of two three-point updates with ratio 2r
    BarStencilWithin(a1, c, a2, 2.0 * r, lo, hi);
    BarStencilWithin(b1, c, b2, 2.0 * r, lo, hi);
    var across := c + 2.0 * r * (a1 - 2.0 * c + a2);
    var along := c + 2.0 * r * (b1 - 2.0 * c + b2);
    assert PlateStencil(p, r, i, j) == (across + along) / 2.0;
  }

  /** Every cell an edge write can produce lies between the floor and the ceiling. */
  lemma EdgeCellWithin(e: PlateEdges, n: nat, col: nat, i: nat, j: nat, inner: real, t: real)
    requires i < n && j < n
    requires 0 < i < n - 1 && 0 < j && j != col ==> PlateFloor(t, e) <= inner <= PlateCeiling(t, e)
    ensures PlateFloor(t, e) <= EdgeCell(e, n, col, i, j, inner) <= PlateCeiling(t, e)
  {
    if j == col {
      ProfileWithin(e.bottom, n, i);
    } else if j == 0 {
      ProfileWithin(e.top, n, i);
    } else if i == n - 1 {
      ProfileWithin(e.left, n, j);
    } else if i == 0 {
      ProfileWithin(e.right, n, j);
    }
  }

  lemma InitialPlateWithin(n: nat, t: real, e: PlateEdges, c: nat)
    ensures PlateWithin(InitialPlate(n, t, e, c), PlateFloor(t, e), PlateCeiling(t, e))
  {
    var g := InitialPlate(n, t, e, c);
    forall i, j | 0 <= i < n && 0 <= j < n
      ensures PlateFloor(t, e) <= g[i][j] <= PlateCeiling(t, e)
    {
      EdgeCellWithin(e, n, c, i, j, t, t);
    }
  }

  lemma ExplicitPlateStepWithin(p: Plate, r: real, e: PlateEdges, n: nat, t: real)
    requires IsSquare(p, n) && n >= 2 && 0.0 <= r <= 0.25
    requires PlateWithin(p, PlateFloor(t, e), PlateCeiling(t, e))
    ensures PlateWithin(ExplicitPlateStep(p, r, e, n), PlateFloor(t, e), PlateCeiling(t, e))
  {
    var lo, hi := PlateFloor(t, e), PlateCeiling(t, e);
    var g := InteriorUpdate(p, r, n);
    var q := ExplicitPlateStep(p, r, e, n);
    forall i, j | 0 <= i < n && 0 <= j < n
      ensures lo <= q[i][j] <= hi
    {
      if 0 < i < n - 1 && 0 < j < n - 1 {
        PlateStencilWithin(p, r, i, j, lo, hi);
        assert g[i][j] == PlateStencil(p, r, i, j);
        EdgeCellWithin(e, n, n - 1, i, j, g[i][j], t);
      } else {
        EdgeCellWithin(e, n, n - 1, i, j, g[i][j], t);
      }
      assert q[i][j] == EdgeCell(e, n, n - 1, i, j, g[i][j]);
    }
  }

  /**
    Stability of the explicit plate scheme when 0 <= r <= 1/4: no temperature
    of any step leaves the range spanned by the initial value and the edges.
  */
  lemma {:induction false} ExplicitPlateRunWithin(n: nat, r: real, t: real, e: PlateEdges, c: nat, steps: nat)
    requires n >= 2 && 0.0 <= r <= 0.25
    ensures forall k :: 0 <= k <= steps ==>
      PlateWithin(ExplicitPlateRun(n, r, t, e, c, steps)[k], PlateFloor(t, e), PlateCeiling(t, e))
    decreases steps
  {
    var s := ExplicitPlateRun(n, r, t, e, c, steps);
    if steps == 0 {
      InitialPlateWithin(n, t, e, c);
    } else {
      ExplicitPlateRunWithin(n, r, t, e, c, steps - 1);
      var prev := ExplicitPlateRun(n, r, t, e, c, steps - 1);
      var last := ExplicitPlateStep(prev[steps - 1], r, e, n);
      assert s == prev + [last];
      ExplicitPlateStepWithin(prev[steps - 1], r, e, n, t);
      forall k | 0 <= k <= steps
        ensures PlateWithin(s[k], PlateFloor(t, e), PlateCeiling(t, e))
      {
        if k < steps {
          assert s[k] == prev[k];
        } else {
          assert s[k] == last;
        }
      }
    }
  }

  /**
    With r = 2/5, which the source accepts for the explicit scheme, a 3 × 3
    plate at 100 with every edge at 0 reaches -24 at its centre after two
    steps, below everything the initial plate and the edges span.
  */
  lemma ExplicitPlateOvershoot()
    ensures PlateFloor(100.0, ColdEdges) == 0.0
    ensures ExplicitPlateRun(3, 0.4, 100.0, ColdEdges, 1, 2)[2][1][1] == -24.0
  {
    var s := ExplicitPlateRun(3, 0.4, 100.0, ColdEdges, 1, 2);
    ExplicitPlateRunSteps(3, 0.4, 100.0, ColdEdges, 1, 2);
    var zero := Profile(Uniform(0.0), 3);
    assert zero[0] == 0.0 && zero[1] == 0.0 && zero[2] == 0.0;
    assert s[0][0][1] == 0.0 && s[0][2][1] == 0.0 && s[0][1][0] == 0.0 && s[0][1][1] == 0.0;
    assert s[0][1][2] == 100.0;
    assert s[1][1][1] == PlateStencil(s[0], 0.4, 1, 1) == 40.0;
    assert s[1][0][1] == 0.0 && s[1][2][1] == 0.0 && s[1][1][0] == 0.0 && s[1][1][2] == 0.0;
    assert s[2][1][1] == PlateStencil(s[1], 0.4, 1, 1);
  }

  /** One pass of the plate loop: a zero array filled by the stencil inside, then the four edges written. */
  method ExplicitPlateUpdate(before: Plate, r: real, e: PlateEdges, n: nat) returns (after: Plate)
    requires IsSquare(before, n) && n >= 2
    ensures after == ExplicitPlateStep(before, r, e, n)
  {
    var now := new real[n, n]((i, j) => 0.0);
    for i := 1 to n - 1
      invariant forall i', j' :: 0 <= i' < n && 0 <= j' < n ==>
        now[i', j'] == if 1 <= i' < i && 1 <= j' < n - 1 then PlateStencil(before, r, i', j') else 0.0
    {
      for j := 1 to n - 1
        invariant forall i', j' :: 0 <= i' < n && 0 <= j' < n ==>
          now[i', j'] == if (1 <= i' < i && 1 <= j' < n - 1) || (i' == i && 1 <= j' < j)
                         then PlateStencil(before, r, i', j') else 0.0
      {
        now[i, j] := PlateStencil(before, r, i, j);
      }
    }
    ImposeEdgesInPlace(now, e, n - 1);
    after := Snapshot(now);
    PlateExtensionality(after, ExplicitPlateStep(before, r, e, n), n);
  }

  /** `EulerExplicite` on a plate: the full series of `nt` plates, the initial bottom on column `c`. */
  method EulerExplicitPlate(n: nat, nt: nat, r: real, t: real, e: PlateEdges, c: nat) returns (tfs: seq<Plate>)
    requires n >= 2 && nt >= 1 && c < n
    ensures tfs == ExplicitPlateRun(n, r, t, e, c, nt - 1)
  {
    var first := NewPlate(n, t, e, c);
    tfs := [first];
    for k := 0 to nt - 1
      invariant tfs == ExplicitPlateRun(n, r, t, e, c, k)
    {
      var now := ExplicitPlateUpdate(tfs[|tfs| - 1], r, e, n);
      tfs := tfs + [now];
    }
  }
}
