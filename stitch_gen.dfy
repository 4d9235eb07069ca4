/** `generate_stitched_data.py`: the helpers around the STITCHES package that
    turn a global temperature trajectory into a recipe — yearly linear
    interpolation, the trajectory's table form, the archive filter, the
    archive's end-year vector and the fix to the recipe's last period. The
    package's own functions (`make_recipe`, `chunk_ts`, `get_chunk_info`,
    `subset_archive`, `gridded_stitching`) are not part of this model. */
module StitchGen {
  import opened Common

  // ---------------------------------------------------------------------------
  // Year ranges

  /** `np.arange(start, stop)` */
  function Arange(start: int, stop: int): (r: seq<int>)
    ensures |r| == if start < stop then stop - start else 0
    ensures forall i :: 0 <= i < |r| ==> r[i] == start + i
  {
    if start < stop then seq(stop - start, i requires 0 <= i < stop - start => start + i) else []
  }

  /** `np.arange(start, stop, -step)` */
  function ArangeDown(start: int, stop: int, step: nat): (r: seq<int>)
    requires step > 0
    decreases start - stop
  {
    if start <= stop then [] else [start] + ArangeDown(start - step, stop, step)
  }

  /** The values go down from `start` by `step`, all above `stop`, and the
      next one would not be. */
  lemma {:induction false} ArangeDownShape(start: int, stop: int, step: nat)
    requires step > 0
    ensures var r := ArangeDown(start, stop, step);
            && (forall i :: 0 <= i < |r| ==> r[i] == start - step * i && r[i] > stop)
            && start - step * |r| <= stop
    decreases start - stop
  {
    if start > stop {
      var rest := ArangeDown(start - step, stop, step);
      ArangeDownShape(start - step, stop, step);
      var r := [start] + rest;
      forall i | 1 <= i < |r| ensures r[i] == start - step * i {
        assert step * i == step * (i - 1) + step;
        assert r[i] == rest[i - 1] == start - step - step * (i - 1);
      }
      assert step * |r| == step * |rest| + step;
    }
  }

  /** The first end year, the year the vector stops before, and its step. */
  const LastEndYear: int := 2100
  const FirstStartYear: int := 1800
  const ChunkLength: nat := 9

  /** `np.arange(2100, 1800, -9)`: the end years of the archive's chunks. */
  function EndYearVector(): seq<int> {
    ArangeDown(LastEndYear, FirstStartYear, ChunkLength)
  }

  /** The vector starts at 2100, steps down by 9 and has the 34 end years
      2100, 2091, ..., 1803, all after 1800. */
  lemma EndYearVectorShape()
    ensures var r := EndYearVector();
            && |r| == 34 && r[0] == 2100 && r[33] == 1803
            && forall i :: 0 <= i < |r| ==> r[i] == 2100 - 9 * i && r[i] > 1800
  {
    ArangeDownShape(LastEndYear, FirstStartYear, ChunkLength);
    var r := EndYearVector();
    if |r| > 0 {
      assert r[|r| - 1] > 1800;
    }
  }

  // ---------------------------------------------------------------------------
  // interp

  /** `min(years)` */
  function Lowest(s: seq<int>): int
    requires s != []
  {
    if |s| == 1 then s[0]
    else if s[0] <= Lowest(s[1..]) then s[0] else Lowest(s[1..])
  }

  /** `max(years)` */
  function Highest(s: seq<int>): int
    requires s != []
  {
    if |s| == 1 then s[0]
    else if s[0] >= Highest(s[1..]) then s[0] else Highest(s[1..])
  }

  /** The smallest year is one of the years and at most every other one;
      the largest likewise at least every other one. */
  lemma {:induction false} Extremes(s: seq<int>)
    requires s != []
    ensures exists k :: 0 <= k < |s| && s[k] == Lowest(s)
    ensures exists k :: 0 <= k < |s| && s[k] == Highest(s)
    ensures forall k :: 0 <= k < |s| ==> Lowest(s) <= s[k] <= Highest(s)
  {
    if |s| == 1 {
      assert s[0] == Lowest(s) && s[0] == Highest(s);
    } else {
      Extremes(s[1..]);
      assert forall k :: 1 <= k < |s| ==> s[k] == s[1..][k - 1];
      var a :| 0 <= a < |s[1..]| && s[1..][a] == Lowest(s[1..]);
      var b :| 0 <= b < |s[1..]| && s[1..][b] == Highest(s[1..]);
      if s[0] <= Lowest(s[1..]) {
        assert s[0] == Lowest(s);
      } else {
        assert s[a + 1] == Lowest(s);
      }
      if s[0] >= Highest(s[1..]) {
        assert s[0] == Highest(s);
      } else {
        assert s[b + 1] == Highest(s);
      }
    }
  }

  /** `np.where(years == y)[0][0]`: the first position holding `y`, if any. */
  function Find(years: seq<int>, y: int): (k: Option<nat>)
    ensures k.Some? ==> k.value < |years| && years[k.value] == y
  {
    if years == [] then None
    else if years[0] == y then Some(0)
    else
      var k := Find(years[1..], y);
      if k.None? then None else Some(k.value + 1)
  }

  /** `Find` gives the first position holding `y`, and finds nothing only
      where no position holds it. */
  lemma {:induction false} FindFirst(years: seq<int>, y: int)
    ensures var k := Find(years, y);
            && (k.Some? ==> forall j :: 0 <= j < k.value ==> years[j] != y)
            && (k.None? ==> forall j :: 0 <= j < |years| ==> years[j] != y)
  {
    if years != [] && years[0] != y {
      FindFirst(years[1..], y);
      assert forall j :: 1 <= j < |years| ==> years[j] == years[1..][j - 1];
    }
  }

  /** A position holding `max(years[year > years])`, the nearest known year
      below `y`, if there is one. */
  function Below(years: seq<int>, y: int): (k: Option<nat>)
    ensures k.Some? ==> k.value < |years| && years[k.value] < y
  {
    if years == [] then None
    else
      var rest := Below(years[1..], y);
      if years[0] < y && (rest.None? || years[1..][rest.value] < years[0]) then Some(0)
      else if rest.None? then None
      else Some(rest.value + 1)
  }

  /** A position holding `min(years[year < years])`, the nearest known year
      above `y`, if there is one. */
  function Above(years: seq<int>, y: int): (k: Option<nat>)
    ensures k.Some? ==> k.value < |years| && years[k.value] > y
  {
    if years == [] then None
    else
      var rest := Above(years[1..], y);
      if years[0] > y && (rest.None? || years[1..][rest.value] > years[0]) then Some(0)
      else if rest.None? then None
      else Some(rest.value + 1)
  }

  /** `Below` and `Above` are the nearest known years on each side, and
      find nothing only where no known year lies on that side. */
  lemma {:induction false} Nearest(years: seq<int>, y: int)
    ensures var lo := Below(years, y);
            && (lo.Some? ==> forall j :: 0 <= j < |years| && years[j] < y ==> years[j] <= years[lo.value])
            && (lo.None? ==> forall j :: 0 <= j < |years| ==> years[j] >= y)
    ensures var hi := Above(years, y);
            && (hi.Some? ==> forall j :: 0 <= j < |years| && years[j] > y ==> years[hi.value] <= years[j])
            && (hi.None? ==> forall j :: 0 <= j < |years| ==> years[j] <= y)
  {
    if years != [] {
      Nearest(years[1..], y);
      assert forall j :: 1 <= j < |years| ==> years[j] == years[1..][j - 1];
    }
  }

  /** A year in range that no position holds has known years on both sides. */
  lemma NeighboursExist(years: seq<int>, y: int)
    requires years != [] && Lowest(years) <= y <= Highest(years)
    requires Find(years, y).None?
    ensures Below(years, y).Some? && Above(years, y).Some?
  {
    Extremes(years);
    FindFirst(years, y);
    Nearest(years, y);
    var a :| 0 <= a < |years| && years[a] == Lowest(years);
    var b :| 0 <= b < |years| && years[b] == Highest(years);
    assert years[a] < y < years[b];
  }

  /** The value at the first position holding the year at position `k`. */
  function ValueOf(years: seq<int>, values: seq<real>, k: nat): real
    requires |values| == |years| && k < |years|
  {
    FindFirst(years, years[k]);
    values[Find(years, years[k]).value]
  }

  /** The straight line through `(lo, vl)` and `(hi, vh)`, at `y`. */
  function Lerp(lo: int, hi: int, y: int, vl: real, vh: real): real
    requires lo < hi
  {
    var p := (y - lo) as real / (hi - lo) as real;
    p * vh + (1.0 - p) * vl
  }

  /** A fraction of a quantity lies between zero and the quantity. */
  lemma ScaleBetween(p: real, x: real)
    requires 0.0 <= p <= 1.0
    ensures 0.0 <= x ==> 0.0 <= p * x <= x
    ensures x < 0.0 ==> x <= p * x <= 0.0
  {
    assert p * x + (1.0 - p) * x == x;
    if 0.0 <= x {
      assert (1.0 - p) * x >= 0.0;
    } else {
      assert p * -x >= 0.0 && (1.0 - p) * -x >= 0.0;
    }
  }

  /** Between its ends the line stays between their values. */
  lemma LerpBetween(lo: int, hi: int, y: int, vl: real, vh: real)
    requires lo < y < hi
    ensures 0.0 < (y - lo) as real / (hi - lo) as real < 1.0
    ensures var r := Lerp(lo, hi, y, vl, vh);
            (vl <= r <= vh) || (vh <= r <= vl)
  {
    var d := (hi - lo) as real;
    var p := (y - lo) as real / d;
    assert 0.0 < p < 1.0 by {
      assert p * d == (y - lo) as real;
      assert (y - lo) as real < d;
    }
    assert Lerp(lo, hi, y, vl, vh) == vl + p * (vh - vl);
    ScaleBetween(p, vh - vl);
  }

  /** The straight line `a * x + b`. */
  function Line(a: real, b: real, x: int): real {
    a * x as real + b
  }

  /** The line through two points of a straight line is that line. */
  lemma LerpOnLine(lo: int, hi: int, y: int, a: real, b: real)
    requires lo < hi
    ensures Lerp(lo, hi, y, Line(a, b, lo), Line(a, b, hi)) == Line(a, b, y)
  {
    var d := (hi - lo) as real;
    var p := (y - lo) as real / d;
    assert p * d == (y - lo) as real;
    calc {
      p * (a * hi as real + b) + (1.0 - p) * (a * lo as real + b);
      a * (lo as real + p * d) + b;
      a * y as real + b;
    }
  }

  /** The interpolated value of one year between the first and the last
      known year: the known value where there is one, otherwise the line
      between the nearest known neighbours. */
  function InterpAt(years: seq<int>, values: seq<real>, y: int): real
    requires |values| == |years| && years != [] && Lowest(years) <= y <= Highest(years)
  {
    var here := Find(years, y);
    if here.Some? then values[here.value]
    else
      NeighboursExist(years, y);
      var lo, hi := Below(years, y), Above(years, y);
      Lerp(years[lo.value], years[hi.value], y, ValueOf(years, values, lo.value), ValueOf(years, values, hi.value))
  }

  /** A year the input does not hold lies strictly between its nearest known
      neighbours, its weight strictly between 0 and 1, and its value between
      theirs. */
  lemma InterpBetween(years: seq<int>, values: seq<real>, y: int)
    requires |values| == |years| && years != [] && Lowest(years) <= y <= Highest(years)
    requires forall j :: 0 <= j < |years| ==> years[j] != y
    ensures Below(years, y).Some? && Above(years, y).Some?
    ensures var lo := years[Below(years, y).value];
            var hi := years[Above(years, y).value];
            var vl := ValueOf(years, values, Below(years, y).value);
            var vh := ValueOf(years, values, Above(years, y).value);
            var r := InterpAt(years, values, y);
            && lo < y < hi && 0.0 < (y - lo) as real / (hi - lo) as real < 1.0
            && (forall j :: 0 <= j < |years| ==> years[j] <= lo || years[j] >= hi)
            && ((vl <= r <= vh) || (vh <= r <= vl))
  {
    NeighboursExist(years, y);
    Nearest(years, y);
    var lo, hi := Below(years, y).value, Above(years, y).value;
    LerpBetween(years[lo], years[hi], y, ValueOf(years, values, lo), ValueOf(years, values, hi));
  }

  /** Every year the input holds is in range, and its interpolated value is
      the input's value at that year's first position. */
  lemma InterpAtKnownYear(years: seq<int>, values: seq<real>, k: nat)
    requires |values| == |years| && k < |years|
    ensures Lowest(years) <= years[k] <= Highest(years)
    ensures InterpAt(years, values, years[k]) == ValueOf(years, values, k)
  {
    Extremes(years);
    FindFirst(years, years[k]);
  }

  /** Linear interpolation is exact on linear data: if every known value is
      on a straight line, so is every interpolated one. */
  lemma InterpExactOnLines(years: seq<int>, values: seq<real>, y: int, a: real, b: real)
    requires |values| == |years| && years != [] && Lowest(years) <= y <= Highest(years)
    requires forall i :: 0 <= i < |years| ==> values[i] == Line(a, b, years[i])
    ensures InterpAt(years, values, y) == Line(a, b, y)
  {
    if Find(years, y).None? {
      NeighboursExist(years, y);
      var lo, hi := Below(years, y).value, Above(years, y).value;
      assert ValueOf(years, values, lo) == Line(a, b, years[lo]) by {
        FindFirst(years, years[lo]);
        var kl := Find(years, years[lo]).value;
        assert values[kl] == Line(a, b, years[kl]);
      }
      assert ValueOf(years, values, hi) == Line(a, b, years[hi]) by {
        FindFirst(years, years[hi]);
        var kh := Find(years, years[hi]).value;
        assert values[kh] == Line(a, b, years[kh]);
      }
      LerpOnLine(years[lo], years[hi], y, a, b);
    }
  }

  /** `interp(years, values)`: the years from the first to the last known
      year, and at position `i` the interpolated value of year
      `min(years) + i`. `min` of no years and a value column of another
      length raise. */
  method Interp(years: seq<int>, values: seq<real>) returns (newYears: seq<int>, newValues: array<real>, err: Option<string>)
    ensures err.Some? <==> years == [] || |values| != |years|
    ensures err.None? ==> newYears == Arange(Lowest(years), Highest(years) + 1) && newValues.Length == |newYears|
    ensures err.None? ==> forall i :: 0 <= i < newValues.Length ==> newValues[i] == InterpAt(years, values, Lowest(years) + i)
    ensures fresh(newValues)
  {
    if years == [] {
      return [], new real[0], Some("ValueError: min() arg is an empty sequence");
    }
    var lowest, highest := Lowest(years), Highest(years);
    newYears := Arange(lowest, highest + 1);
    newValues := new real[highest - lowest + 1];
    if |values| != |years| {
      return newYears, newValues, Some("IndexError: boolean index did not match indexed array");
    }
    FillInterpolated(years, values, newValues);
    err := None;
  }

  /** `interp`'s loop: position `index` gets the value of year
      `min(years) + index`. */
  method FillInterpolated(years: seq<int>, values: seq<real>, newValues: array<real>)
    requires |values| == |years| && years != [] && newValues.Length == Highest(years) - Lowest(years) + 1
    modifies newValues
    ensures forall i :: 0 <= i < newValues.Length ==> newValues[i] == InterpAt(years, values, Lowest(years) + i)
  {
    var lowest := Lowest(years);
    for index := 0 to newValues.Length
      invariant forall i :: 0 <= i < index ==> newValues[i] == InterpAt(years, values, lowest + i)
    {
      newValues[index] := InterpYear(years, values, lowest + index);
    }
  }

  /** One turn of `interp`'s loop: the known value, or the weighted mean of
      the neighbours' values. */
  method InterpYear(years: seq<int>, values: seq<real>, year: int) returns (v: real)
    requires |values| == |years| && years != [] && Lowest(years) <= year <= Highest(years)
    ensures v == InterpAt(years, values, year)
  {
    var here := Find(years, year);
    if here.Some? {
      v := values[here.value];
    } else {
      NeighboursExist(years, year);
      var less, more := Below(years, year).value, Above(years, year).value;
      var p := (year - years[less]) as real / (years[more] - years[less]) as real;
      v := p * ValueOf(years, values, more) + (1.0 - p) * ValueOf(years, values, less);
    }
  }

  // ---------------------------------------------------------------------------
  // format_data_for_stitches

  /** A row of the trajectory in the package's column order; `value` is None
      where it is NaN. */
  datatype Traj = Traj(variable: string, experiment: string, ensemble: string, model: string, year: int, value: Option<real>)

  /** The reference period of the anomaly. */
  predicate InReference(year: int) {
    1995 <= year <= 2014
  }

  function ReferenceSum(rows: seq<(int, real)>): real
    decreases |rows|
  {
    if rows == [] then 0.0
    else (if InReference(rows[0].0) then rows[0].1 else 0.0) + ReferenceSum(rows[1..])
  }

  function ReferenceCount(rows: seq<(int, real)>): nat
    decreases |rows|
  {
    if rows == [] then 0
    else (if InReference(rows[0].0) then 1 else 0) + ReferenceCount(rows[1..])
  }

  /** `np.mean(value[(year <= 2014) & (year >= 1995)])`; NaN when no year is
      in the reference period. */
  function ReferenceMean(rows: seq<(int, real)>): Option<real> {
    if ReferenceCount(rows) == 0 then None else Some(ReferenceSum(rows) / ReferenceCount(rows) as real)
  }

  /** `format_data_for_stitches(interped_data, model, ensemble, experiment)`:
      every row labelled tas with the given model, member and experiment,
      its value made an anomaly against the 1995-2014 mean. */
  function Format(rows: seq<(int, real)>, model: string, ensemble: string, experiment: string): (r: seq<Traj>)
    ensures |r| == |rows|
    ensures forall i :: 0 <= i < |r| ==> r[i].variable == "tas" && r[i].model == model && r[i].ensemble == ensemble
                                         && r[i].experiment == experiment && r[i].year == rows[i].0
    ensures ReferenceCount(rows) == 0 ==> forall i :: 0 <= i < |r| ==> r[i].value.None?
    ensures ReferenceCount(rows) > 0 ==> forall i :: 0 <= i < |r| ==> r[i].value == Some(rows[i].1 - ReferenceMean(rows).value)
  {
    var mean := ReferenceMean(rows);
    seq(|rows|, i requires 0 <= i < |rows| =>
      Traj("tas", experiment, ensemble, model, rows[i].0, if mean.None? then None else Some(rows[i].1 - mean.value)))
  }

  function TrajReferenceSum(r: seq<Traj>): real
    requires forall i :: 0 <= i < |r| ==> r[i].value.Some?
    decreases |r|
  {
    if r == [] then 0.0
    else (if InReference(r[0].year) then r[0].value.value else 0.0) + TrajReferenceSum(r[1..])
  }

  lemma {:induction false} ShiftedSum(rows: seq<(int, real)>, m: real, r: seq<Traj>)
    requires |r| == |rows|
    requires forall i :: 0 <= i < |r| ==> r[i].year == rows[i].0 && r[i].value == Some(rows[i].1 - m)
    ensures TrajReferenceSum(r) == ReferenceSum(rows) - ReferenceCount(rows) as real * m
    decreases |rows|
  {
    if rows != [] {
      ShiftedSum(rows[1..], m, r[1..]);
    }
  }

  /** The anomalies average to zero over the reference period. */
  lemma {:induction false} AnomalyMeanZero(rows: seq<(int, real)>, model: string, ensemble: string, experiment: string)
    requires ReferenceCount(rows) > 0
    ensures var r := Format(rows, model, ensemble, experiment);
            (forall i :: 0 <= i < |r| ==> r[i].value.Some?) && TrajReferenceSum(r) == 0.0
  {
    var m := ReferenceMean(rows).value;
    var r := Format(rows, model, ensemble, experiment);
    ShiftedSum(rows, m, r);
    var n := ReferenceCount(rows) as real;
    assert n * (ReferenceSum(rows) / n) == ReferenceSum(rows);
  }

  // ---------------------------------------------------------------------------
  // get_recipe

  /** The columns of a recipe row the fix reads and writes. */
  datatype RecipeRow = RecipeRow(targetStart: int, targetEnd: int, archiveStart: int, archiveEnd: int)

  /** The recipe after its last period's archive start is moved so that the
      archive span is as long as the target span; an empty recipe raises. */
  function FixLast(recipe: seq<RecipeRow>): (r: Result<seq<RecipeRow>>)
    ensures r.Ok? <==> recipe != []
    ensures r.Ok? ==> |r.value| == |recipe|
    ensures r.Ok? ==> forall i :: 0 <= i < |recipe| - 1 ==> r.value[i] == recipe[i]
    ensures r.Ok? ==> var n := |recipe| - 1;
                      && r.value[n].archiveEnd - r.value[n].archiveStart == recipe[n].targetEnd - recipe[n].targetStart
                      && r.value[n].archiveEnd == recipe[n].archiveEnd
                      && r.value[n].targetStart == recipe[n].targetStart && r.value[n].targetEnd == recipe[n].targetEnd
  {
    if recipe == [] then Err("IndexError: index -1 is out of bounds for axis 0 with size 0")
    else
      var last := recipe[|recipe| - 1];
      Ok(recipe[..|recipe| - 1] + [last.(archiveStart := last.archiveEnd - (last.targetEnd - last.targetStart))])
  }

  /** `get_recipe` after `make_recipe`: the archive start years are taken
      out as an array, its last element overwritten, and the column set
      back from a copy. */
  method GetRecipe(recipe: seq<RecipeRow>) returns (r: Result<seq<RecipeRow>>)
    ensures r == FixLast(recipe)
  {
    if recipe == [] {
      return Err("IndexError: index -1 is out of bounds for axis 0 with size 0");
    }
    var n := |recipe| - 1;
    var lastPeriodLength := recipe[n].targetEnd - recipe[n].targetStart;
    var asy := new int[|recipe|](i requires 0 <= i < |recipe| => recipe[i].archiveStart);
    asy[n] := recipe[n].archiveEnd - lastPeriodLength;
    var copy := asy[..];
    r := Ok(seq(|recipe|, i requires 0 <= i < |recipe| => recipe[i].(archiveStart := copy[i])));
    assert r.value == FixLast(recipe).value;
  }

  // ---------------------------------------------------------------------------
  // The archive for one model

  /** The archive columns the filter reads. */
  datatype ArchiveEntry = ArchiveEntry(model: string, experiment: string, ensemble: string, startYr: int, endYr: int)

  /** `data[(data['model'] == esm) & (data['experiment'].str.contains('ssp'))]` */
  function ModelData(archive: seq<ArchiveEntry>, esm: string): (r: seq<ArchiveEntry>)
    ensures forall e :: e in r <==> e in archive && e.model == esm && Contains(e.experiment, "ssp")
  {
    var r := Filter(archive, (e: ArchiveEntry) => e.model == esm && Contains(e.experiment, "ssp"));
    forall e | e in archive && e.model == esm && Contains(e.experiment, "ssp") ensures e in r {
      var k :| 0 <= k < |archive| && archive[k] == e;
    }
    r
  }

  // ---------------------------------------------------------------------------
  // generate_stitched, up to the recipe

  /** The interpolated trajectory as the `(year, value)` rows of its frame. */
  function Interpolated(years: seq<int>, values: seq<real>): (rows: seq<(int, real)>)
    requires |values| == |years| && years != []
    ensures |rows| == Highest(years) - Lowest(years) + 1
    ensures forall i :: 0 <= i < |rows| ==> rows[i].0 == Lowest(years) + i
  {
    var lowest := Lowest(years);
    seq(Highest(years) - lowest + 1, i requires 0 <= i < Highest(years) - lowest + 1 => (lowest + i, InterpAt(years, values, lowest + i)))
  }

  /** The part of `generate_stitched` before the package's chunking: the
      archive rows for the model, and the interpolated, formatted target
      trajectory, or the error `interp` raises. */
  method PrepareTarget(archive: seq<ArchiveEntry>, esm: string, series: seq<real>, years: seq<int>,
                       ensemble: string, experiment: string, trajectoryModel: string)
    returns (modelData: seq<ArchiveEntry>, target: Result<seq<Traj>>)
    ensures modelData == ModelData(archive, esm)
    ensures target.Err? <==> years == [] || |series| != |years|
    ensures target.Ok? ==> target.value == Format(Interpolated(years, series), trajectoryModel, ensemble, experiment)
  {
    modelData := ModelData(archive, esm);
    var newYears, temps, err := Interp(years, series);
    if err.Some? {
      return modelData, Err(err.value);
    }
    var values := temps[..];
    var rows := seq(|values|, i requires 0 <= i < |values| => (newYears[i], values[i]));
    ghost var spec := Interpolated(years, series);
    assert |rows| == |spec|;
    forall i | 0 <= i < |rows| ensures rows[i] == spec[i] {
      assert values[i] == temps[i];
    }
    assert rows == spec;
    target := Ok(Format(rows, trajectoryModel, ensemble, experiment));
  }

  /** The prepared target is one row per year from the first to the last
      known year, each an anomaly against the 1995-2014 mean when that
      period is covered. */
  lemma TargetYearsConsecutive(years: seq<int>, series: seq<real>, ensemble: string, experiment: string, trajectoryModel: string)
    requires |series| == |years| && years != []
    ensures var t := Format(Interpolated(years, series), trajectoryModel, ensemble, experiment);
            && |t| == Highest(years) - Lowest(years) + 1
            && (forall i :: 0 <= i < |t| ==> t[i].year == Lowest(years) + i && t[i].variable == "tas")
            && (Lowest(years) <= 2014 && Highest(years) >= 1995 ==>
                  (forall i :: 0 <= i < |t| ==> t[i].value.Some?) && TrajReferenceSum(t) == 0.0)
  {
    var rows := Interpolated(years, series);
    if Lowest(years) <= 2014 && Highest(years) >= 1995 {
      var y := if Lowest(years) >= 1995 then Lowest(years) else 1995;
      ReferenceCountPositive(rows, y - Lowest(years));
      AnomalyMeanZero(rows, trajectoryModel, ensemble, experiment);
    }
  }

  lemma {:induction false} ReferenceCountPositive(rows: seq<(int, real)>, k: nat)
    requires k < |rows| && InReference(rows[k].0)
    ensures ReferenceCount(rows) > 0
    decreases k
  {
    if k > 0 {
      ReferenceCountPositive(rows[1..], k - 1);
    }
  }
}
