/**
  The temperature-to-colour mapping: a temperature is normalised against the
  series extremes, clamped into [0, 1] and coloured by a five-band
  piecewise-linear palette running from dark blue to dark red.
*/
module Palette {

  datatype Rgb = Rgb(r: real, g: real, b: real)

  predicate InUnitCube(c: Rgb) {
    0.0 <= c.r <= 1.0 && 0.0 <= c.g <= 1.0 && 0.0 <= c.b <= 1.0
  }

  /** `max(0, min(1, x))`: the safety clamp applied to the normalised value. */
  function Clamp(x: real): (c: real)
    ensures 0.0 <= c <= 1.0
    ensures 0.0 <= x <= 1.0 ==> c == x
    ensures x < 0.0 ==> c == 0.0
    ensures x > 1.0 ==> c == 1.0
  {
    var m := if x < 1.0 then x else 1.0;
    if m > 0.0 then m else 0.0
  }

  /**
    The clamped position of `temp` between `tmin` (0) and `tmax` (1).  The
    temperatures are 64-bit numpy floats, so with `tmax == tmin` the quotient
    is not an error but NaN (for `temp == tmin`) or an infinity of the sign of
    `temp - tmin`; the clamp `max(0, min(1, q))` sends NaN and +inf to 1 and
    -inf to 0.
  */
  function Normalise(temp: real, tmin: real, tmax: real): (n: real)
    ensures 0.0 <= n <= 1.0
    ensures tmin < tmax && temp <= tmin ==> n == 0.0
    ensures tmin < tmax && tmax <= temp ==> n == 1.0
    ensures tmin <= temp <= tmax && tmin != tmax ==> n * (tmax - tmin) == temp - tmin
    ensures tmin == tmax ==> (n == 1.0 <==> temp >= tmin) && (n == 0.0 <==> temp < tmin)
  {
    if tmax == tmin then
      if temp < tmin then 0.0 else 1.0
    else
      var q := (temp - tmin) / (tmax - tmin);
      QuotientBounds(temp - tmin, tmax - tmin);
      Clamp(q)
  }

  /** Where the quotient `x / d` falls, for `d` of either sign. */
  lemma QuotientBounds(x: real, d: real)
    requires d != 0.0
    ensures (x / d) * d == x
    ensures d > 0.0 && x <= 0.0 ==> x / d <= 0.0
    ensures d > 0.0 && x >= d ==> x / d >= 1.0
    ensures d > 0.0 && 0.0 <= x <= d ==> 0.0 <= x / d <= 1.0
  {
    var q := x / d;
    if d > 0.0 {
      if x <= d && q > 1.0 { assert (q - 1.0) * d > 0.0; }
    }
  }

  // The five bands, each as its own linear formula.

  /** Dark blue to blue. */
  function Band1(n: real): Rgb { Rgb(0.0, 0.0, 0.5 + 2.5 * n) }

  /** Blue to turquoise. */
  function Band2(n: real): Rgb { Rgb(0.0, (n - 0.2) / 0.2, 1.0) }

  /** Turquoise to light yellow. */
  function Band3(n: real): Rgb {
    var r := (n - 0.4) / 0.2;
    Rgb(r, 1.0, 1.0 - r)
  }

  /** Light yellow to orange. */
  function Band4(n: real): Rgb { Rgb(1.0, 1.0 - (n - 0.6) / 0.4, 0.0) }

  /** Orange to dark red. */
  function Band5(n: real): Rgb { Rgb(1.0 - (n - 0.8) / 0.4, 0.0, 0.0) }

  /** The band choice; every upper breakpoint belongs to the lower band. */
  function BandColour(n: real): Rgb {
    if n <= 0.2 then Band1(n)
    else if n <= 0.4 then Band2(n)
    else if n <= 0.6 then Band3(n)
    else if n <= 0.8 then Band4(n)
    else Band5(n)
  }

  /** The colour of a temperature for a series whose extremes are `tmin` and `tmax`. */
  function TemperatureToColour(temp: real, tmin: real, tmax: real): (c: Rgb)
    ensures InUnitCube(c)
    ensures tmin < tmax && temp <= tmin ==> c == Rgb(0.0, 0.0, 0.5)
    ensures tmin < tmax && tmax <= temp ==> c == Rgb(0.5, 0.0, 0.0)
    ensures tmin == tmax && tmin <= temp ==> c == Rgb(0.5, 0.0, 0.0)
  {
    var n := Normalise(temp, tmin, tmax);
    BandIsInUnitCube(n);
    BandColour(n)
  }

  /** Every colour of the palette, on the whole clamped range, is a valid RGB triple. */
  lemma BandIsInUnitCube(n: real)
    requires 0.0 <= n <= 1.0
    ensures InUnitCube(BandColour(n))
  {
  }

  /** The two ends of the palette. */
  lemma PaletteEnds()
    ensures BandColour(0.0) == Rgb(0.0, 0.0, 0.5)
    ensures BandColour(1.0) == Rgb(0.5, 0.0, 0.0)
  {
  }

  /**
    At 0.2, 0.4 and 0.6 the colour is also the next band's formula, so the
    palette is continuous there; at 0.8 the green channel drops from 0.5
    (the value the breakpoint takes) to 0 (the next band's limit).
  */
  lemma Breakpoints()
    ensures BandColour(0.2) == Band2(0.2) == Rgb(0.0, 0.0, 1.0)
    ensures BandColour(0.4) == Band3(0.4) == Rgb(0.0, 1.0, 1.0)
    ensures BandColour(0.6) == Band4(0.6) == Rgb(1.0, 1.0, 0.0)
    ensures BandColour(0.8) == Rgb(1.0, 0.5, 0.0)
    ensures Band5(0.8) == Rgb(1.0, 0.0, 0.0)
  {
  }

  /**
    Within each band exactly the channels the palette names move, and they
    move monotonically: blue rises, then green rises, then red rises while
    blue falls, then green falls, then red falls.
  */
  lemma MonotoneWithinBands(n1: real, n2: real)
    requires 0.0 <= n1 <= n2 <= 1.0
    ensures n2 <= 0.2 ==> BandColour(n1).b <= BandColour(n2).b
    ensures 0.2 < n1 && n2 <= 0.4 ==> BandColour(n1).g <= BandColour(n2).g
    ensures 0.4 < n1 && n2 <= 0.6 ==> BandColour(n1).r <= BandColour(n2).r && BandColour(n1).b >= BandColour(n2).b
    ensures 0.6 < n1 && n2 <= 0.8 ==> BandColour(n1).g >= BandColour(n2).g
    ensures 0.8 < n1 ==> BandColour(n1).r >= BandColour(n2).r
  {
  }
}
