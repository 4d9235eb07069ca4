/** The temperature decomposition used to bias-adjust daily minimum and
    maximum temperature indirectly: the pipeline adjusts tas, tasrange and
    tasskew and rebuilds tasmin and tasmax from them afterwards.

    Values are exact reals rather than IEEE doubles. A cell that holds `None`
    is a non-finite value (NaN or an infinity): the division of the forward
    transform produces one wherever the range is zero, since the code has no
    guard against that. Arithmetic on two arrays keeps the coordinates the
    two share, as xarray's default inner alignment does. */
module Transform {
  import opened Common

  /** One grid point: a day and a latitude/longitude cell. */
  datatype Coord = Coord(year: int, day: int, lat: int, lon: int)

  type Cell = Option<real>

  /** A data array: a value at each coordinate it covers. */
  type Grid = map<Coord, Cell>

  function Add(a: Cell, b: Cell): Cell {
    if a.Some? && b.Some? then Some(a.value + b.value) else None
  }

  function Sub(a: Cell, b: Cell): Cell {
    if a.Some? && b.Some? then Some(a.value - b.value) else None
  }

  function Mul(a: Cell, b: Cell): Cell {
    if a.Some? && b.Some? then Some(a.value * b.value) else None
  }

  /** Division; a zero divisor yields a non-finite value. */
  function Div(a: Cell, b: Cell): Cell {
    if a.Some? && b.Some? && b.value != 0.0 then Some(a.value / b.value) else None
  }

  // ---------------------------------------------------------------------------
  // One cell

  /** tasrange = tasmax - tasmin */
  function RangeOf(tasmax: Cell, tasmin: Cell): Cell {
    Sub(tasmax, tasmin)
  }

  /** tasskew = (tas - tasmin) / tasrange */
  function SkewOf(tas: Cell, tasmin: Cell, tasrange: Cell): Cell {
    Div(Sub(tas, tasmin), tasrange)
  }

  /** tasmin = tas - tasskew * tasrange */
  function MinOf(tas: Cell, tasskew: Cell, tasrange: Cell): Cell {
    Sub(tas, Mul(tasskew, tasrange))
  }

  /** tasmax = tasmin + tasrange */
  function MaxOf(tasmin: Cell, tasrange: Cell): Cell {
    Add(tasmin, tasrange)
  }

  /** Forward then inverse gives back the original extremes exactly whenever
      the range is not zero. */
  lemma CellRoundTrip(tas: real, tasmax: real, tasmin: real)
    requires tasmax != tasmin
    ensures var r := RangeOf(Some(tasmax), Some(tasmin));
            var s := SkewOf(Some(tas), Some(tasmin), r);
            MinOf(Some(tas), s, r) == Some(tasmin) && MaxOf(MinOf(Some(tas), s, r), r) == Some(tasmax)
  {
    var d := tasmax - tasmin;
    var k := (tas - tasmin) / d;
    assert k * d == tas - tasmin;
    var m := Mul(Some(k), Some(d));
    assert m.Some? && m.value == k * d;
    assert MinOf(Some(tas), Some(k), Some(d)) == Some(tasmin);
  }

  /** Inverse then forward gives back the range and the skew: the two
      transforms are mutually inverse on finite cells with a non-zero range. */
  lemma CellInverseRoundTrip(tas: real, tasskew: real, tasrange: real)
    requires tasrange != 0.0
    ensures var lo := MinOf(Some(tas), Some(tasskew), Some(tasrange));
            var hi := MaxOf(lo, Some(tasrange));
            RangeOf(hi, lo) == Some(tasrange) && SkewOf(Some(tas), lo, RangeOf(hi, lo)) == Some(tasskew)
  {
    var lo := tas - tasskew * tasrange;
    var m := Mul(Some(tasskew), Some(tasrange));
    assert m.Some? && m.value == tasskew * tasrange;
    assert MinOf(Some(tas), Some(tasskew), Some(tasrange)) == Some(lo);
    assert MaxOf(Some(lo), Some(tasrange)) == Some(lo + tasrange);
    assert RangeOf(Some(lo + tasrange), Some(lo)) == Some(tasrange);
    assert tas - lo == tasskew * tasrange;
    assert (tasskew * tasrange) / tasrange == tasskew;
    assert SkewOf(Some(tas), Some(lo), Some(tasrange)) == Some(tasskew);
  }

  /** A zero range has no skew: the division yields a non-finite value. */
  lemma CellZeroRange(tas: Cell, tasmax: real)
    ensures SkewOf(tas, Some(tasmax), RangeOf(Some(tasmax), Some(tasmax))) == None
  {
  }

  /** When tas lies between the extremes the skew is a fraction in [0, 1]. */
  lemma SkewIsFraction(tas: real, tasmax: real, tasmin: real)
    requires tasmin <= tas <= tasmax && tasmin < tasmax
    ensures var s := SkewOf(Some(tas), Some(tasmin), RangeOf(Some(tasmax), Some(tasmin)));
            s.Some? && 0.0 <= s.value <= 1.0
  {
    var d := tasmax - tasmin;
    var k := (tas - tasmin) / d;
    assert k * d == tas - tasmin;
    assert tas - tasmin <= d;
  }

  // ---------------------------------------------------------------------------
  // Whole arrays

  /** `tasmax_data['tasmax'] - tasmin_data['tasmin']` */
  function RangeGrid(tasmax: Grid, tasmin: Grid): (r: Grid)
    ensures r.Keys == tasmax.Keys * tasmin.Keys
  {
    map c | c in tasmax.Keys * tasmin.Keys :: RangeOf(tasmax[c], tasmin[c])
  }

  /** `(tas_data['tas'] - tasmin_data['tasmin']) / tasrange_array` */
  function SkewGrid(tas: Grid, tasmin: Grid, tasrange: Grid): (r: Grid)
    ensures r.Keys == tas.Keys * tasmin.Keys * tasrange.Keys
  {
    map c | c in tas.Keys * tasmin.Keys * tasrange.Keys :: SkewOf(tas[c], tasmin[c], tasrange[c])
  }

  /** `tas_data['tas'] - (tasskew_data['tasskew'] * tasrange_data['tasrange'])` */
  function MinGrid(tas: Grid, tasskew: Grid, tasrange: Grid): (r: Grid)
    ensures r.Keys == tas.Keys * tasskew.Keys * tasrange.Keys
  {
    map c | c in tas.Keys * tasskew.Keys * tasrange.Keys :: MinOf(tas[c], tasskew[c], tasrange[c])
  }

  /** `tasmin_array + tasrange_data['tasrange']` */
  function MaxGrid(tasmin: Grid, tasrange: Grid): (r: Grid)
    ensures r.Keys == tasmin.Keys * tasrange.Keys
  {
    map c | c in tasmin.Keys * tasrange.Keys :: MaxOf(tasmin[c], tasrange[c])
  }

  /** Every cell of the array holds a finite value. */
  predicate Finite(g: Grid) {
    forall c :: c in g ==> g[c].Some?
  }

  /** Three arrays on the same coordinates, all finite, with tasmax and tasmin
      apart in every cell. */
  predicate Decomposable(tas: Grid, tasmax: Grid, tasmin: Grid) {
    tas.Keys == tasmax.Keys == tasmin.Keys && Finite(tas) && Finite(tasmax) && Finite(tasmin)
    && forall c :: c in tasmax ==> tasmax[c] != tasmin[c]
  }

  /** The forward transform followed by the inverse rebuilds tasmin and tasmax
      exactly. */
  lemma GridRoundTrip(tas: Grid, tasmax: Grid, tasmin: Grid)
    requires Decomposable(tas, tasmax, tasmin)
    ensures var r := RangeGrid(tasmax, tasmin);
            var s := SkewGrid(tas, tasmin, r);
            MinGrid(tas, s, r) == tasmin && MaxGrid(MinGrid(tas, s, r), r) == tasmax
  {
    var r := RangeGrid(tasmax, tasmin);
    var s := SkewGrid(tas, tasmin, r);
    var lo := MinGrid(tas, s, r);
    forall c | c in tasmin ensures lo[c] == tasmin[c] {
      CellRoundTrip(tas[c].value, tasmax[c].value, tasmin[c].value);
    }
    forall c | c in tasmax ensures MaxGrid(lo, r)[c] == tasmax[c] {
      CellRoundTrip(tas[c].value, tasmax[c].value, tasmin[c].value);
    }
  }

  /** The rebuilt extremes are exactly `tasrange` apart wherever the inputs
      are finite. */
  lemma RebuiltSpanIsRange(tas: Grid, tasskew: Grid, tasrange: Grid)
    requires Finite(tas) && Finite(tasskew) && Finite(tasrange)
    ensures var lo := MinGrid(tas, tasskew, tasrange);
            var hi := MaxGrid(lo, tasrange);
            hi.Keys == lo.Keys && forall c :: c in hi ==> Sub(hi[c], lo[c]) == tasrange[c]
  {
  }

  /** The inverse transform followed by the forward one gives back the range
      and the skew arrays. */
  lemma GridInverseRoundTrip(tas: Grid, tasskew: Grid, tasrange: Grid)
    requires tas.Keys == tasskew.Keys == tasrange.Keys
    requires Finite(tas) && Finite(tasskew) && Finite(tasrange)
    requires forall c :: c in tasrange ==> tasrange[c].value != 0.0
    ensures var lo := MinGrid(tas, tasskew, tasrange);
            var hi := MaxGrid(lo, tasrange);
            RangeGrid(hi, lo) == tasrange && SkewGrid(tas, lo, RangeGrid(hi, lo)) == tasskew
  {
    var lo := MinGrid(tas, tasskew, tasrange);
    var hi := MaxGrid(lo, tasrange);
    forall c | c in tasrange ensures RangeGrid(hi, lo)[c] == tasrange[c] {
      CellInverseRoundTrip(tas[c].value, tasskew[c].value, tasrange[c].value);
    }
    assert RangeGrid(hi, lo) == tasrange;
    forall c | c in tasskew ensures SkewGrid(tas, lo, tasrange)[c] == tasskew[c] {
      CellInverseRoundTrip(tas[c].value, tasskew[c].value, tasrange[c].value);
    }
  }
}
