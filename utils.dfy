/** The configuration helpers shared by the stage scripts: parameter lookup,
    attribute lookup, NetCDF encoding settings and chunk-size resetting.
    Reading the CSV files is left out; each helper receives the table the
    file holds. */
module Utils {
  import opened Common

  /** A CSV cell, a dictionary value or an attribute of `basd.Parameters`.
      `NA` is a missing cell (NaN); `Null` is Python's None. */
  datatype Value = Text(s: string) | Num(x: real) | Int(i: int) | NA | Null

  /** A data frame: its column names and its rows, each keyed by column. */
  datatype Table = Table(columns: set<string>, rows: seq<map<string, Value>>)

  predicate WellFormed(t: Table) {
    forall i :: 0 <= i < |t.rows| ==> t.rows[i].Keys == t.columns
  }

  /** `df[df.variable == name]` */
  function RowsFor(t: Table, name: string): (r: seq<map<string, Value>>)
    requires WellFormed(t) && "variable" in t.columns
    ensures forall i :: 0 <= i < |r| ==> r[i] in t.rows && r[i]["variable"] == Text(name)
    ensures forall i :: 0 <= i < |t.rows| && t.rows[i]["variable"] == Text(name) ==> t.rows[i] in r
  {
    Filter(t.rows, (row: map<string, Value>) => "variable" in row && row["variable"] == Text(name))
  }

  /** The columns `dropna(axis=1)` keeps: those with no missing cell. */
  function CompleteColumns(columns: set<string>, rows: seq<map<string, Value>>): set<string>
    requires forall i :: 0 <= i < |rows| ==> rows[i].Keys == columns
  {
    set c | c in columns && forall i :: 0 <= i < |rows| ==> rows[i][c] != NA
  }

  /** `.dropna(axis=1).to_dict(orient='records')[0]` */
  function FirstRecord(columns: set<string>, rows: seq<map<string, Value>>): (r: Result<map<string, Value>>)
    requires forall i :: 0 <= i < |rows| ==> rows[i].Keys == columns
    ensures r.Ok? <==> rows != []
    ensures r.Ok? ==> r.value.Keys == CompleteColumns(columns, rows)
    ensures r.Ok? ==> forall k :: k in r.value ==> r.value[k] == rows[0][k] && r.value[k] != NA
  {
    if rows == [] then Err("IndexError: list index out of range")
    else
      var keep := CompleteColumns(columns, rows);
      Ok(map k | k in keep :: rows[0][k])
  }

  /** `df[df.variable == name].dropna(axis=1).to_dict(orient='records')[0]` */
  function Lookup(t: Table, name: string): (r: Result<map<string, Value>>)
    requires WellFormed(t)
    ensures r.Ok? <==> "variable" in t.columns && exists i :: 0 <= i < |t.rows| && t.rows[i]["variable"] == Text(name)
    ensures r.Ok? ==> "variable" in r.value && r.value["variable"] == Text(name)
  {
    if "variable" !in t.columns then Err("AttributeError: 'DataFrame' object has no attribute 'variable'")
    else
      var rows := RowsFor(t, name);
      assert forall i :: 0 <= i < |rows| ==> rows[i].Keys == t.columns;
      if rows == [] then
        assert forall i :: 0 <= i < |t.rows| ==> t.rows[i]["variable"] != Text(name);
        FirstRecord(t.columns, rows)
      else
        var r := FirstRecord(t.columns, rows);
        assert "variable" in CompleteColumns(t.columns, rows);
        r
  }

  // ---------------------------------------------------------------------------
  // get_parameters

  /** Python's `int(x)` on a float: truncation toward zero. */
  function Trunc(x: real): (r: int)
    ensures x >= 0.0 ==> r as real <= x < r as real + 1.0
    ensures x < 0.0 ==> r as real - 1.0 < x <= r as real
  {
    if x >= 0.0 then x.Floor else -((-x).Floor)
  }

  /** The ASCII whitespace `int()` skips around a numeral. */
  predicate IsSpace(c: char) {
    c == ' ' || c == '\t' || c == '\n' || c == '\r' || c == '\U{0B}' || c == '\U{0C}'
  }

  function StripLeft(s: string): (r: string)
    ensures |r| <= |s| && r == s[|s| - |r|..]
    ensures r == [] || !IsSpace(r[0])
    ensures forall c :: c in s ==> c in r || IsSpace(c)
  {
    if s != [] && IsSpace(s[0]) then StripLeft(s[1..]) else s
  }

  function StripRight(s: string): (r: string)
    ensures |r| <= |s| && r == s[..|r|]
    ensures r == [] || !IsSpace(r[|r| - 1])
    ensures forall c :: c in s ==> c in r || IsSpace(c)
  {
    if s != [] && IsSpace(s[|s| - 1]) then StripRight(s[..|s| - 1]) else s
  }

  /** `s.strip()`: no leading or trailing whitespace, and nothing else removed. */
  function Strip(s: string): (r: string)
    ensures r == [] || (!IsSpace(r[0]) && !IsSpace(r[|r| - 1]))
    ensures forall c :: c in r ==> c in s
    ensures forall c :: c in s ==> c in r || IsSpace(c)
  {
    StripRight(StripLeft(s))
  }

  /** An optional sign followed by one or more decimal digits. */
  function ParseNumeral(t: string): (r: Option<int>)
    ensures r.Some? ==> t != [] && forall c :: c in t ==> IsDigit(c) || c == '-' || c == '+'
    ensures r.Some? ==> IsDigit(t[|t| - 1])
  {
    if t != [] && (t[0] == '-' || t[0] == '+') then
      var digits := t[1..];
      if digits != [] && forall c :: c in digits ==> IsDigit(c) then
        assert t == [t[0]] + digits;
        assert t[|t| - 1] in digits;
        Some(if t[0] == '-' then -(ParseNat(digits) as int) else ParseNat(digits))
      else None
    else if t != [] && forall c :: c in t ==> IsDigit(c) then
      assert t[|t| - 1] in t;
      Some(ParseNat(t))
    else None
  }

  /** `int(s)` on text: optional surrounding whitespace around a numeral. */
  function ParseIntText(s: string): (r: Option<int>)
    ensures r.Some? ==> forall c :: c in s ==> IsDigit(c) || IsSpace(c) || c == '-' || c == '+'
    ensures r.Some? ==> exists c :: c in s && IsDigit(c)
  {
    var t := Strip(s);
    var r := ParseNumeral(t);
    if r.Some? then assert t[|t| - 1] in t; r else r
  }

  /** `str(n)` for any integer. */
  function IntToString(n: int): (r: string)
    ensures r != [] && !IsSpace(r[0]) && !IsSpace(r[|r| - 1])
  {
    var digits := NatToString(if n < 0 then -n else n);
    assert digits[0] in digits && digits[|digits| - 1] in digits;
    if n < 0 then "-" + digits else digits
  }

  lemma ParseNumeralOf(n: int)
    ensures ParseNumeral(IntToString(n)) == Some(n)
  {
    if n < 0 {
      var x := IntToString(n);
      assert x[1..] == NatToString(-n);
      ParseNatToString(-n);
    } else {
      var x := NatToString(n);
      assert x[0] in x;
      ParseNatToString(n);
    }
  }

  /** `int(value)` on a cell read from CSV. */
  function ToInt(v: Value): (r: Result<Value>)
    ensures r.Ok? ==> r.value.Int?
    ensures v.Int? ==> r == Ok(v)
    ensures v.Num? ==> r == Ok(Int(Trunc(v.x)))
    ensures v.Text? ==> (r.Ok? <==> ParseIntText(v.s).Some?)
    ensures v.NA? || v.Null? ==> r.Err?
  {
    match v
    case Int(_) => Ok(v)
    case Num(x) => Ok(Int(Trunc(x)))
    case Text(s) =>
      (match ParseIntText(s)
       case Some(n) => Ok(Int(n))
       case None => Err("ValueError: invalid literal for int()"))
    case _ => Err("ValueError: cannot convert to int")
  }

  lemma {:induction false} StripLeftSpaces(pre: string, x: string)
    requires forall c :: c in pre ==> IsSpace(c)
    requires x == [] || !IsSpace(x[0])
    ensures StripLeft(pre + x) == x
  {
    if pre != [] {
      assert pre[0] in pre;
      assert (pre + x)[1..] == pre[1..] + x;
      StripLeftSpaces(pre[1..], x);
    } else {
      assert pre + x == x;
    }
  }

  lemma {:induction false} StripRightSpaces(x: string, post: string)
    requires forall c :: c in post ==> IsSpace(c)
    requires x == [] || !IsSpace(x[|x| - 1])
    ensures StripRight(x + post) == x
  {
    if post != [] {
      assert post[|post| - 1] in post;
      assert (x + post)[..|x + post| - 1] == x + post[..|post| - 1];
      StripRightSpaces(x, post[..|post| - 1]);
    } else {
      assert x + post == x;
    }
  }

  /** A cell holding `str(n)`, padded with whitespace on either side,
      converts back to `n`. */
  lemma ToIntRoundTrip(n: int, pre: string, post: string)
    requires forall c :: c in pre ==> IsSpace(c)
    requires forall c :: c in post ==> IsSpace(c)
    ensures ToInt(Text(pre + IntToString(n) + post)) == Ok(Int(n))
  {
    var x := IntToString(n);
    StripRightSpaces(x, post);
    assert pre + x + post == pre + (x + post);
    StripLeftSpaces(pre, x + post);
    assert Strip(pre + x + post) == x;
    ParseNumeralOf(n);
  }

  /** `if key in d: d[key] = int(d[key])` */
  function IntField(d: map<string, Value>, key: string): (r: Result<map<string, Value>>)
    ensures key !in d ==> r == Ok(d)
    ensures r.Ok? ==> r.value.Keys == d.Keys
    ensures r.Ok? <==> key !in d || ToInt(d[key]).Ok?
    ensures r.Ok? && key in d ==> r.value[key].Int? && Ok(r.value[key]) == ToInt(d[key])
    ensures r.Ok? ==> forall k :: k in d && k != key ==> r.value[k] == d[k]
  {
    if key !in d then Ok(d)
    else match ToInt(d[key])
      case Ok(v) => Ok(d[key := v])
      case Err(e) => Err(e)
  }

  /** The settings `basd.Parameters` is built from: the first row for the
      variable without missing columns, minus the `variable` key, with
      `n_iterations` and `halfwin_ubc` converted to integers. */
  function GetParameters(t: Table, variable: string): (r: Result<map<string, Value>>)
    requires WellFormed(t)
    ensures r.Ok? ==> "variable" in t.columns && exists i :: 0 <= i < |t.rows| && t.rows[i]["variable"] == Text(variable)
    ensures r.Ok? ==> "variable" !in r.value
    ensures r.Ok? ==> r.value.Keys == Lookup(t, variable).value.Keys - {"variable"}
    ensures r.Ok? ==> forall k :: k in r.value && k != "n_iterations" && k != "halfwin_ubc" ==>
                        r.value[k] == Lookup(t, variable).value[k] && r.value[k] != NA
    ensures r.Ok? && "n_iterations" in r.value ==> (r.value["n_iterations"].Int?
                                                    && Ok(r.value["n_iterations"]) == ToInt(Lookup(t, variable).value["n_iterations"]))
    ensures r.Ok? && "halfwin_ubc" in r.value ==> (r.value["halfwin_ubc"].Int?
                                                   && Ok(r.value["halfwin_ubc"]) == ToInt(Lookup(t, variable).value["halfwin_ubc"]))
    ensures Lookup(t, variable).Ok? ==>
              (r.Ok? <==> var record := Lookup(t, variable).value;
                          ("n_iterations" in record ==> ToInt(record["n_iterations"]).Ok?)
                          && ("halfwin_ubc" in record ==> ToInt(record["halfwin_ubc"]).Ok?))
  {
    match Lookup(t, variable)
    case Err(e) => Err(e)
    case Ok(record) =>
      var d := record - {"variable"};
      match IntField(d, "n_iterations")
      case Err(e) => Err(e)
      case Ok(d1) => IntField(d1, "halfwin_ubc")
  }

  /** A row for the variable is all the lookup needs; the integer fields then
      decide success. */
  lemma GetParametersSucceeds(t: Table, variable: string)
    requires WellFormed(t) && "variable" in t.columns
    requires exists i :: 0 <= i < |t.rows| && t.rows[i]["variable"] == Text(variable)
    requires var record := Lookup(t, variable).value;
             && ("n_iterations" in record ==> record["n_iterations"].Int? || record["n_iterations"].Num?)
             && ("halfwin_ubc" in record ==> record["halfwin_ubc"].Int? || record["halfwin_ubc"].Num?)
    ensures GetParameters(t, variable).Ok?
  {
    var record := Lookup(t, variable).value;
    var d := record - {"variable"};
    assert "n_iterations" in d ==> d["n_iterations"] == record["n_iterations"];
    var d1 := IntField(d, "n_iterations");
    assert d1.Ok?;
    assert "halfwin_ubc" in d1.value ==> d1.value["halfwin_ubc"] == record["halfwin_ubc"];
    assert IntField(d1.value, "halfwin_ubc").Ok?;
  }

  // ---------------------------------------------------------------------------
  // get_attributes

  /** Variable, global monthly and global daily attributes, as the code
      returns them: a missing variable row raises, and a missing global row
      reaches `a, b = {}`, which raises as well. */
  function GetAttributes(t: Table, variable: string): (r: Result<(map<string, Value>, map<string, Value>, map<string, Value>)>)
    requires WellFormed(t)
    ensures r.Ok? <==> Lookup(t, variable).Ok? && Lookup(t, "global_monthly").Ok? && Lookup(t, "global_daily").Ok?
    ensures r.Ok? ==> r.value == (Lookup(t, variable).value, Lookup(t, "global_monthly").value, Lookup(t, "global_daily").value)
  {
    match Lookup(t, variable)
    case Err(e) => Err(e)
    case Ok(v) =>
      if Lookup(t, "global_monthly").Ok? && Lookup(t, "global_daily").Ok? then
        Ok((v, Lookup(t, "global_monthly").value, Lookup(t, "global_daily").value))
      else Err("ValueError: not enough values to unpack (expected 2, got 0)")
  }

  /** The fallback the `except` branch evidently means: no global attributes. */
  function GetAttributesWithFallback(t: Table, variable: string): (r: Result<(map<string, Value>, map<string, Value>, map<string, Value>)>)
    requires WellFormed(t)
    ensures r.Ok? <==> Lookup(t, variable).Ok?
    ensures r.Ok? ==> r.value.0 == Lookup(t, variable).value
    ensures r.Ok? && !(Lookup(t, "global_monthly").Ok? && Lookup(t, "global_daily").Ok?) ==> r.value.1 == map[] && r.value.2 == map[]
    ensures GetAttributes(t, variable).Ok? ==> r == GetAttributes(t, variable)
  {
    match Lookup(t, variable)
    case Err(e) => Err(e)
    case Ok(v) =>
      if Lookup(t, "global_monthly").Ok? && Lookup(t, "global_daily").Ok? then
        Ok((v, Lookup(t, "global_monthly").value, Lookup(t, "global_daily").value))
      else Ok((v, map[], map[]))
  }

  /** As written, a table with the variable's row but no global rows makes
      the lookup raise instead of falling back. */
  lemma GetAttributesFallbackRaises(t: Table, variable: string)
    requires WellFormed(t) && Lookup(t, variable).Ok? && Lookup(t, "global_daily").Err?
    ensures GetAttributes(t, variable).Err?
    ensures GetAttributesWithFallback(t, variable) == Ok((Lookup(t, variable).value, map[], map[]))
  {
  }

  // ---------------------------------------------------------------------------
  // Chunk sizes

  /** `(time_chunk, lat_chunk, lon_chunk)` */
  datatype Chunks = Chunks(time: Value, lat: Value, lon: Value)

  const MAX: Value := Text("max")

  function ResetOne(v: Value, dims: map<string, nat>, dim: string): (r: Result<Value>)
    ensures v != MAX ==> r == Ok(v)
    ensures v == MAX ==> (r.Ok? <==> dim in dims) && (r.Ok? ==> r.value == Int(dims[dim]))
  {
    if v != MAX then Ok(v)
    else if dim in dims then Ok(Int(dims[dim]))
    else Err("KeyError: " + dim)
  }

  /** `reset_chunk_sizes`: each component that is 'max' becomes the size of
      its dimension; the others are kept, in time, lat, lon order. */
  function ResetChunkSizes(c: Chunks, dims: map<string, nat>): (r: Result<Chunks>)
    ensures r.Ok? <==> (c.time == MAX ==> "time" in dims) && (c.lat == MAX ==> "lat" in dims) && (c.lon == MAX ==> "lon" in dims)
    ensures r.Ok? ==> r.value.time == (if c.time == MAX then Int(dims["time"]) else c.time)
    ensures r.Ok? ==> r.value.lat == (if c.lat == MAX then Int(dims["lat"]) else c.lat)
    ensures r.Ok? ==> r.value.lon == (if c.lon == MAX then Int(dims["lon"]) else c.lon)
    ensures r.Ok? ==> MAX !in {r.value.time, r.value.lat, r.value.lon}
  {
    match (ResetOne(c.time, dims, "time"), ResetOne(c.lat, dims, "lat"), ResetOne(c.lon, dims, "lon"))
    case (Ok(t), Ok(la), Ok(lo)) => Ok(Chunks(t, la, lo))
    case (Err(e), _, _) => Err(e)
    case (_, Err(e), _) => Err(e)
    case (_, _, Err(e)) => Err(e)
  }

  /** Once no component is 'max', resetting changes nothing, whatever the
      dimensions: a second reset against other data is a no-op. */
  lemma ResetChunkSizesIdempotent(c: Chunks, dims: map<string, nat>, other: map<string, nat>)
    requires ResetChunkSizes(c, dims).Ok?
    ensures ResetChunkSizes(ResetChunkSizes(c, dims).value, other) == ResetChunkSizes(c, dims)
  {
  }

  // ---------------------------------------------------------------------------
  // get_encoding

  /** The keyword settings for `to_netcdf`'s encoding, and the chunk tuple
      when one was produced. */
  datatype Encoding = Encoding(settings: map<string, Value>, chunksizes: Option<Chunks>)

  const ChunkColumns: set<string> := {"time_chunk", "lat_chunk", "lon_chunk"}

  /** Some chunk column has a missing cell in some row. */
  predicate ChunkMissing(t: Table)
    requires WellFormed(t) && ChunkColumns <= t.columns
  {
    exists i, c :: 0 <= i < |t.rows| && c in ChunkColumns && t.rows[i][c] == NA
  }

  /** `get_encoding` as written: the encoding and the reset flag. When a chunk
      column has a missing cell, `dropna` has already removed it and the `del`
      raises KeyError. */
  function GetEncoding(t: Table): (r: Result<(Encoding, bool)>)
    requires WellFormed(t)
    ensures r.Ok? <==> t.rows != [] && ChunkColumns <= t.columns && !ChunkMissing(t)
    ensures r.Ok? ==> r.value.0.settings.Keys == CompleteColumns(t.columns, t.rows) - ChunkColumns
    ensures r.Ok? ==> (r.value.1 <==> r.value.0.chunksizes.Some?)
    ensures r.Ok? ==> (r.value.1 <==> MAX in {t.rows[0]["time_chunk"], t.rows[0]["lat_chunk"], t.rows[0]["lon_chunk"]})
    ensures r.Ok? && r.value.1 ==> r.value.0.chunksizes == Some(Chunks(t.rows[0]["time_chunk"], t.rows[0]["lat_chunk"], t.rows[0]["lon_chunk"]))
    ensures r.Ok? ==> forall k :: k in r.value.0.settings ==> k in t.rows[0] && r.value.0.settings[k] == t.rows[0][k] != NA
  {
    match FirstRecord(t.columns, t.rows)
    case Err(e) => Err(e)
    case Ok(d) =>
      if !(ChunkColumns <= t.columns) then Err("KeyError: chunk column")
      else if ChunkMissing(t) then
        assert !(ChunkColumns <= d.Keys);
        Err("KeyError: chunk column already dropped")
      else
        var triple := [d["time_chunk"], d["lat_chunk"], d["lon_chunk"]];
        var settings := d - ChunkColumns;
        if MAX in triple then Ok((Encoding(settings, Some(Chunks(triple[0], triple[1], triple[2]))), true))
        else Ok((Encoding(settings, None), false))
  }

  /** The behaviour the comments describe for a missing chunk size: the chunk
      keys are dropped and the library defaults apply. */
  function GetEncodingIntended(t: Table): (r: Result<(Encoding, bool)>)
    requires WellFormed(t)
    ensures r.Ok? <==> t.rows != [] && ChunkColumns <= t.columns
    ensures r.Ok? ==> r.value.0.settings.Keys == CompleteColumns(t.columns, t.rows) - ChunkColumns
    ensures r.Ok? ==> forall k :: k in r.value.0.settings ==> r.value.0.settings[k] == t.rows[0][k] != NA
    ensures r.Ok? ==> (r.value.1 <==> r.value.0.chunksizes.Some?)
    ensures r.Ok? && ChunkMissing(t) ==> r.value == (Encoding(r.value.0.settings, None), false)
    ensures GetEncoding(t).Ok? ==> r == GetEncoding(t)
  {
    if t.rows != [] && ChunkColumns <= t.columns && ChunkMissing(t) then
      Ok((Encoding(FirstRecord(t.columns, t.rows).value - ChunkColumns, None), false))
    else GetEncoding(t)
  }

  /** As written, a single missing chunk cell makes `get_encoding` raise, where
      the intended reading falls back to default chunking. */
  lemma GetEncodingMissingChunkRaises(t: Table)
    requires WellFormed(t) && t.rows != [] && ChunkColumns <= t.columns && ChunkMissing(t)
    ensures GetEncoding(t).Err?
    ensures GetEncodingIntended(t).Ok? && GetEncodingIntended(t).value.0.chunksizes.None?
  {
  }

  /** All three chunk sizes given and none of them 'max': no chunk tuple is
      produced at all, although the comment promises one. */
  lemma GetEncodingFixedChunksDropped(t: Table)
    requires WellFormed(t) && t.rows != [] && ChunkColumns <= t.columns && !ChunkMissing(t)
    requires MAX !in {t.rows[0]["time_chunk"], t.rows[0]["lat_chunk"], t.rows[0]["lon_chunk"]}
    ensures GetEncoding(t).Ok? && GetEncoding(t).value == (Encoding(GetEncoding(t).value.0.settings, None), false)
  {
  }
}
