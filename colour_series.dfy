/**
  `ObtenirCouleur`: the extreme temperatures of the whole series (over every
  instant and every cell), then the colour of every cell of every instant
  against those two extremes.
*/
module ColourSeries {
  import opened Palette

  /** `min(s)`: the least element of a non-empty sequence. */
  function MinOf(s: seq<real>): (m: real)
    requires |s| > 0
    ensures forall i :: 0 <= i < |s| ==> m <= s[i]
    ensures exists i :: 0 <= i < |s| && s[i] == m
    decreases |s|
  {
    if |s| == 1 then s[0]
    else
      var rest := MinOf(s[..|s| - 1]);
      if s[|s| - 1] < rest then s[|s| - 1] else rest
  }

  /** `max(s)`: the greatest element of a non-empty sequence. */
  function MaxOf(s: seq<real>): (m: real)
    requires |s| > 0
    ensures forall i :: 0 <= i < |s| ==> s[i] <= m
    ensures exists i :: 0 <= i < |s| && s[i] == m
    decreases |s|
  {
    if |s| == 1 then s[0]
    else
      var rest := MaxOf(s[..|s| - 1]);
      if s[|s| - 1] > rest then s[|s| - 1] else rest
  }

  /** Every line of the grid holds at least one value. */
  predicate NonEmptyLines(g: seq<seq<real>>) {
    |g| > 0 && forall i :: 0 <= i < |g| ==> |g[i]| > 0
  }

  /** `min(min(g[i]) for i in range(len(g)))`: the least value of a grid of lines. */
  function GridMin(g: seq<seq<real>>): (m: real)
    requires NonEmptyLines(g)
    ensures forall i, j :: 0 <= i < |g| && 0 <= j < |g[i]| ==> m <= g[i][j]
    ensures exists i, j :: 0 <= i < |g| && 0 <= j < |g[i]| && g[i][j] == m
  {
    var mins := seq(|g|, i requires 0 <= i < |g| => MinOf(g[i]));
    var m := MinOf(mins);
    ghost var i :| 0 <= i < |mins| && mins[i] == m;
    ghost var j :| 0 <= j < |g[i]| && g[i][j] == MinOf(g[i]);
    assert forall i', j' :: 0 <= i' < |g| && 0 <= j' < |g[i']| ==> m <= mins[i'] <= g[i'][j'];
    m
  }

  /** `max(max(g[i]) for i in range(len(g)))`: the greatest value of a grid of lines. */
  function GridMax(g: seq<seq<real>>): (m: real)
    requires NonEmptyLines(g)
    ensures forall i, j :: 0 <= i < |g| && 0 <= j < |g[i]| ==> g[i][j] <= m
    ensures exists i, j :: 0 <= i < |g| && 0 <= j < |g[i]| && g[i][j] == m
  {
    var maxs := seq(|g|, i requires 0 <= i < |g| => MaxOf(g[i]));
    var m := MaxOf(maxs);
    ghost var i :| 0 <= i < |maxs| && maxs[i] == m;
    ghost var j :| 0 <= j < |g[i]| && g[i][j] == MaxOf(g[i]);
    assert forall i', j' :: 0 <= i' < |g| && 0 <= j' < |g[i']| ==> g[i'][j'] <= maxs[i'] <= m;
    m
  }

  /** Every plate of a plate series is a non-empty grid of non-empty rows. */
  predicate NonEmptyPlates(s: seq<seq<seq<real>>>) {
    |s| > 0 && forall k :: 0 <= k < |s| ==> NonEmptyLines(s[k])
  }

  /** `min(min(row) for t in Tfs for row in t)`: the least temperature of a plate series. */
  function PlateSeriesMin(s: seq<seq<seq<real>>>): (m: real)
    requires NonEmptyPlates(s)
    ensures forall k, i, j :: 0 <= k < |s| && 0 <= i < |s[k]| && 0 <= j < |s[k][i]| ==> m <= s[k][i][j]
    ensures exists k, i, j :: 0 <= k < |s| && 0 <= i < |s[k]| && 0 <= j < |s[k][i]| && s[k][i][j] == m
  {
    var mins := seq(|s|, k requires 0 <= k < |s| => GridMin(s[k]));
    var m := MinOf(mins);
    ghost var k :| 0 <= k < |mins| && mins[k] == m;
    ghost var i, j :| 0 <= i < |s[k]| && 0 <= j < |s[k][i]| && s[k][i][j] == GridMin(s[k]);
    assert forall k', i', j' :: 0 <= k' < |s| && 0 <= i' < |s[k']| && 0 <= j' < |s[k'][i']| ==>
      m <= mins[k'] <= s[k'][i'][j'];
    m
  }

  /** `max(max(row) for t in Tfs for row in t)`: the greatest temperature of a plate series. */
  function PlateSeriesMax(s: seq<seq<seq<real>>>): (m: real)
    requires NonEmptyPlates(s)
    ensures forall k, i, j :: 0 <= k < |s| && 0 <= i < |s[k]| && 0 <= j < |s[k][i]| ==> s[k][i][j] <= m
    ensures exists k, i, j :: 0 <= k < |s| && 0 <= i < |s[k]| && 0 <= j < |s[k][i]| && s[k][i][j] == m
  {
    var maxs := seq(|s|, k requires 0 <= k < |s| => GridMax(s[k]));
    var m := MaxOf(maxs);
    ghost var k :| 0 <= k < |maxs| && maxs[k] == m;
    ghost var i, j :| 0 <= i < |s[k]| && 0 <= j < |s[k][i]| && s[k][i][j] == GridMax(s[k]);
    assert forall k', i', j' :: 0 <= k' < |s| && 0 <= i' < |s[k']| && 0 <= j' < |s[k'][i']| ==>
      s[k'][i'][j'] <= maxs[k'] <= m;
    m
  }

  /** The colours of one line of temperatures against the extremes `tmin` and `tmax`. */
  function LineColours(line: seq<real>, tmin: real, tmax: real): (c: seq<Rgb>)
    ensures |c| == |line|
    ensures forall j :: 0 <= j < |line| ==> c[j] == TemperatureToColour(line[j], tmin, tmax)
  {
    seq(|line|, j requires 0 <= j < |line| => TemperatureToColour(line[j], tmin, tmax))
  }

  /** The colours of every row of a plate against the extremes `tmin` and `tmax`. */
  function GridColours(g: seq<seq<real>>, tmin: real, tmax: real): (c: seq<seq<Rgb>>)
    ensures |c| == |g|
    ensures forall x :: 0 <= x < |g| ==> c[x] == LineColours(g[x], tmin, tmax)
  {
    seq(|g|, x requires 0 <= x < |g| => LineColours(g[x], tmin, tmax))
  }

  /** The outer loop of `ObtenirCouleur` on a bar series: the colours of every instant in turn. */
  method ColourBars(tfs: seq<seq<real>>, tmin: real, tmax: real) returns (couleurs: seq<seq<Rgb>>)
    ensures couleurs == GridColours(tfs, tmin, tmax)
  {
    couleurs := [];
    for i := 0 to |tfs|
      invariant |couleurs| == i
      invariant forall i' :: 0 <= i' < i ==> couleurs[i'] == LineColours(tfs[i'], tmin, tmax)
    {
      var col := LineColours(tfs[i], tmin, tmax);
      couleurs := couleurs + [col];
    }
  }

  /**
    `ObtenirCouleur` on a bar series: one list of colours per instant, the
    colour of every cell taken against the extremes of the whole series.
  */
  method ColourBarSeries(tfs: seq<seq<real>>) returns (couleurs: seq<seq<Rgb>>)
    requires NonEmptyLines(tfs)
    ensures couleurs == GridColours(tfs, GridMin(tfs), GridMax(tfs))
  {
    var tmin := GridMin(tfs);
    var tmax := GridMax(tfs);
    couleurs := ColourBars(tfs, tmin, tmax);
  }

  /** The colours of one plate, row by row, as the inner loop of `ObtenirCouleur` builds them. */
  method ColourPlate(g: seq<seq<real>>, tmin: real, tmax: real) returns (plate: seq<seq<Rgb>>)
    ensures plate == GridColours(g, tmin, tmax)
  {
    plate := [];
    for x := 0 to |g|
      invariant |plate| == x
      invariant forall x' :: 0 <= x' < x ==> plate[x'] == LineColours(g[x'], tmin, tmax)
    {
      var row := LineColours(g[x], tmin, tmax);
      plate := plate + [row];
    }
  }

  /** The colours of every plate of a series against the extremes `tmin` and `tmax`. */
  function SeriesColours(s: seq<seq<seq<real>>>, tmin: real, tmax: real): (c: seq<seq<seq<Rgb>>>)
    ensures |c| == |s|
    ensures forall k :: 0 <= k < |s| ==> c[k] == GridColours(s[k], tmin, tmax)
  {
    seq(|s|, k requires 0 <= k < |s| => GridColours(s[k], tmin, tmax))
  }

  /** The outer loop of `ObtenirCouleur` on a plate series: one plate of colours per instant. */
  method ColourPlates(tfs: seq<seq<seq<real>>>, tmin: real, tmax: real) returns (couleurs: seq<seq<seq<Rgb>>>)
    ensures couleurs == SeriesColours(tfs, tmin, tmax)
  {
    couleurs := [];
    for k := 0 to |tfs|
      invariant |couleurs| == k
      invariant forall k' :: 0 <= k' < k ==> couleurs[k'] == GridColours(tfs[k'], tmin, tmax)
    {
      var plate := ColourPlate(tfs[k], tmin, tmax);
      couleurs := couleurs + [plate];
    }
  }

  /**
    `ObtenirCouleur` on a plate series: for every instant, for every row, the
    list of colours of that row against the extremes of the whole series.
  */
  method ColourPlateSeries(tfs: seq<seq<seq<real>>>) returns (couleurs: seq<seq<seq<Rgb>>>)
    requires NonEmptyPlates(tfs)
    ensures couleurs == SeriesColours(tfs, PlateSeriesMin(tfs), PlateSeriesMax(tfs))
  {
    var tmin := PlateSeriesMin(tfs);
    var tmax := PlateSeriesMax(tfs);
    couleurs := ColourPlates(tfs, tmin, tmax);
  }

  /** Every colour of a coloured bar series is a valid RGB triple. */
  lemma BarColoursInUnitCube(tfs: seq<seq<real>>, couleurs: seq<seq<Rgb>>)
    requires NonEmptyLines(tfs) && couleurs == GridColours(tfs, GridMin(tfs), GridMax(tfs))
    ensures forall i, j :: 0 <= i < |couleurs| && 0 <= j < |couleurs[i]| ==> InUnitCube(couleurs[i][j])
  {
    forall i, j | 0 <= i < |couleurs| && 0 <= j < |couleurs[i]|
      ensures InUnitCube(couleurs[i][j])
    {
      assert couleurs[i] == LineColours(tfs[i], GridMin(tfs), GridMax(tfs));
      assert couleurs[i][j] == TemperatureToColour(tfs[i][j], GridMin(tfs), GridMax(tfs));
    }
  }

  /** Every colour of a coloured plate series is a valid RGB triple. */
  lemma PlateColoursInUnitCube(tfs: seq<seq<seq<real>>>, couleurs: seq<seq<seq<Rgb>>>)
    requires NonEmptyPlates(tfs) && couleurs == SeriesColours(tfs, PlateSeriesMin(tfs), PlateSeriesMax(tfs))
    ensures forall k, x, y :: 0 <= k < |couleurs| && 0 <= x < |couleurs[k]| && 0 <= y < |couleurs[k][x]| ==>
      InUnitCube(couleurs[k][x][y])
  {
    forall k, x, y | 0 <= k < |couleurs| && 0 <= x < |couleurs[k]| && 0 <= y < |couleurs[k][x]|
      ensures InUnitCube(couleurs[k][x][y])
    {
      assert couleurs[k] == GridColours(tfs[k], PlateSeriesMin(tfs), PlateSeriesMax(tfs));
      assert couleurs[k][x] == LineColours(tfs[k][x], PlateSeriesMin(tfs), PlateSeriesMax(tfs));
      assert couleurs[k][x][y] == TemperatureToColour(tfs[k][x][y], PlateSeriesMin(tfs), PlateSeriesMax(tfs));
    }
  }

  /**
    The palette is used end to end: when the series is not constant, a coldest
    cell is dark blue and a hottest cell is dark red; when it is constant,
    every cell is dark red.
  */
  lemma BarColourExtremes(tfs: seq<seq<real>>)
    requires NonEmptyLines(tfs)
    ensures GridMin(tfs) < GridMax(tfs) ==>
      exists i, j :: 0 <= i < |tfs| && 0 <= j < |tfs[i]| &&
        TemperatureToColour(tfs[i][j], GridMin(tfs), GridMax(tfs)) == Rgb(0.0, 0.0, 0.5)
    ensures GridMin(tfs) < GridMax(tfs) ==>
      exists i, j :: 0 <= i < |tfs| && 0 <= j < |tfs[i]| &&
        TemperatureToColour(tfs[i][j], GridMin(tfs), GridMax(tfs)) == Rgb(0.5, 0.0, 0.0)
    ensures GridMin(tfs) == GridMax(tfs) ==>
      forall i, j :: 0 <= i < |tfs| && 0 <= j < |tfs[i]| ==>
        TemperatureToColour(tfs[i][j], GridMin(tfs), GridMax(tfs)) == Rgb(0.5, 0.0, 0.0)
  {
    var tmin, tmax := GridMin(tfs), GridMax(tfs);
    var i, j :| 0 <= i < |tfs| && 0 <= j < |tfs[i]| && tfs[i][j] == tmin;
    var i', j' :| 0 <= i' < |tfs| && 0 <= j' < |tfs[i']| && tfs[i'][j'] == tmax;
    assert TemperatureToColour(tfs[i][j], tmin, tmax) == Rgb(0.0, 0.0, 0.5) || tmin == tmax;
    assert TemperatureToColour(tfs[i'][j'], tmin, tmax) == Rgb(0.5, 0.0, 0.0);
  }

  /** The same two ends for a plate series. */
  lemma PlateColourExtremes(tfs: seq<seq<seq<real>>>)
    requires NonEmptyPlates(tfs)
    ensures PlateSeriesMin(tfs) < PlateSeriesMax(tfs) ==>
      exists k, x, y :: 0 <= k < |tfs| && 0 <= x < |tfs[k]| && 0 <= y < |tfs[k][x]| &&
        TemperatureToColour(tfs[k][x][y], PlateSeriesMin(tfs), PlateSeriesMax(tfs)) == Rgb(0.0, 0.0, 0.5)
    ensures exists k, x, y :: (0 <= k < |tfs| && 0 <= x < |tfs[k]| && 0 <= y < |tfs[k][x]| &&
      TemperatureToColour(tfs[k][x][y], PlateSeriesMin(tfs), PlateSeriesMax(tfs)) == Rgb(0.5, 0.0, 0.0))
  {
    var tmin, tmax := PlateSeriesMin(tfs), PlateSeriesMax(tfs);
    var k, x, y :| 0 <= k < |tfs| && 0 <= x < |tfs[k]| && 0 <= y < |tfs[k][x]| && tfs[k][x][y] == tmin;
    var k', x', y' :| 0 <= k' < |tfs| && 0 <= x' < |tfs[k']| && 0 <= y' < |tfs[k'][x']| && tfs[k'][x'][y'] == tmax;
    assert TemperatureToColour(tfs[k][x][y], tmin, tmax) == Rgb(0.0, 0.0, 0.5) || tmin == tmax;
    assert TemperatureToColour(tfs[k'][x'][y'], tmin, tmax) == Rgb(0.5, 0.0, 0.0);
  }
}
