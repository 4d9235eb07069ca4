/** What the three bias-adjustment-and-downscaling drivers (CMIP6 data on
    disk, STITCHES data on disk, CMIP6 data from Pangeo) have in common once
    their input data is loaded: trimming to the periods, resetting the chunk
    sizes, the monthly-output switch, the two library calls, the clean-up of
    temporary directories and the removal of unwanted daily output.

    The `basd` library is not part of this model: its two entry points are
    pure functions given as a parameter, and each call's output directory,
    file names, parameters, encoding and attributes are recorded in a
    `Request`, which is what the drivers decide. */
module BasdStage {
  import opened Common
  import opened Files
  import opened Tasks
  import opened Utils

  /** The settings a `basd.Parameters` object holds. */
  type Params = map<string, Value>

  /** Variable, global monthly and global daily attributes. */
  type Attributes = (map<string, Value>, map<string, Value>, map<string, Value>)

  /** `init_bias_adjustment` + `adjust_bias`, `init_downscaling` +
      `downscale`, and the monthly means both write beside the daily file. */
  datatype Library = Library(
    adjust: (Dataset, Dataset, Dataset, string, Params) -> Dataset,
    downscale: (Dataset, Dataset, string, Params) -> Dataset,
    monthlyMeans: Dataset -> Dataset)

  /** What one library call was asked to write, and with which settings. */
  datatype Request = Request(dir: string, dayFile: string, monthFile: Option<string>,
                             params: Params, encoding: Encoding, attrs: Attributes)

  /** The file system after a driver, the exception that ended it early (if
      any) and the library calls it made. */
  datatype Report = Report(fs: Fs, error: Option<string>, requests: seq<Request>)

  /** The paths and file names `set_names` assigns that the shared steps use. */
  datatype Names = Names(tempDir: string, baPath: string, dayBa: string, monBa: Option<string>,
                         basdPath: string, dayBasd: string, monBasd: Option<string>,
                         refPath: Option<string>)

  /** The three datasets bias adjustment starts from. */
  datatype Loaded = Loaded(obsRef: Dataset, simRef: Dataset, simApp: Dataset)

  /** The three configuration tables a driver reads: `variable_parameters.csv`,
      `encoding.csv` and `attributes.csv`. */
  datatype Config = Config(parameters: Table, encoding: Table, attributes: Table)

  predicate ConfigOk(cfg: Config) {
    WellFormed(cfg.parameters) && WellFormed(cfg.encoding) && WellFormed(cfg.attributes)
  }

  /** Parameters, encoding, the chunk-reset flag and the attributes. */
  datatype Settings = Settings(params: Params, enc: Encoding, reset: bool, attrs: Attributes)

  // ---------------------------------------------------------------------------
  // Names

  /** `os.path.join(output, reference, esm, scenario)`: every output of a task
      lies under this directory. */
  function RunDir(output: string, task: Task): string {
    JoinAll(output, [task.ref, task.esm, task.scenario])
  }

  /** `{esm}_{member}_{reference}_{scenario}_{variable}_global_{frequency}_{start}_{end}.nc`,
      where `member` is the ensemble member or `STITCHES`. */
  function OutputName(task: Task, member: string, frequency: string, start: string, end: string): string {
    task.esm + "_" + member + "_" + task.ref + "_" + task.scenario + "_" + task.variable
    + "_global_" + frequency + "_" + start + "_" + end + ".nc"
  }

  /** The daily and the monthly name of an output never coincide. */
  lemma DailyMonthlyNamesDiffer(task: Task, member: string, start: string, end: string)
    ensures OutputName(task, member, "daily", start, end) != OutputName(task, member, "monthly", start, end)
  {
    assert |OutputName(task, member, "daily", start, end)| + 2 == |OutputName(task, member, "monthly", start, end)|;
  }

  // ---------------------------------------------------------------------------
  // Periods and loading

  predicate IsYear(s: string) {
    s != [] && forall c :: c in s ==> IsDigit(c)
  }

  /** The bounds of a `start-end` period as `str.split(period, '-')` unpacks
      them and `sel(time=slice(start, end))` reads them as years. */
  function Years(period: string): (r: Result<(int, int)>)
    ensures r.Ok? ==> OneDash(period)
    ensures SplitPeriod(period).None? ==> r.Err?
  {
    SplitPeriodOneDash(period);
    match SplitPeriod(period)
    case None => Err("ValueError: wrong number of values to unpack")
    case Some((a, b)) =>
      if IsYear(a) && IsYear(b) then Ok((ParseNat(a), ParseNat(b)))
      else Err("ValueError: not a year")
  }

  /** A period written from two years is read back as those years. */
  lemma YearsOfPeriod(a: nat, b: nat)
    ensures Years(NatToString(a) + "-" + NatToString(b)) == Ok((a, b))
  {
    var s, t := NatToString(a), NatToString(b);
    assert '-' !in s && '-' !in t by {
      assert forall c :: c in s ==> IsDigit(c);
      assert forall c :: c in t ==> IsDigit(c);
    }
    SplitPeriodOfJoin(s, t);
    ParseNatToString(a);
    ParseNatToString(b);
  }

  /** `ds.sel(time=slice(start, end))` followed by dropping every coordinate
      other than time, lat and lon. */
  function Trim(ds: Dataset, years: (int, int)): (r: Dataset)
    ensures r.coords == ds.coords * DimCoords && r.vars.Keys == ds.vars.Keys
    ensures forall v, c :: v in r.vars && c in r.vars[v] <==> v in ds.vars && c in ds.vars[v] && years.0 <= c.year <= years.1
    ensures forall v, c :: v in r.vars && c in r.vars[v] ==> v in ds.vars && c in ds.vars[v] && r.vars[v][c] == ds.vars[v][c]
  {
    var s := SelectYears(ds, years.0, years.1);
    Dataset(s.coords * DimCoords, s.vars)
  }

  /** `xr.open_mfdataset(os.path.join(dir, prefix + '*' + suffix))`; a
      missing directory cell (NaN) makes the join raise. */
  function OpenPattern(fs: Fs, dir: Option<string>, prefix: string, suffix: string): (r: Result<Dataset>)
    ensures r.Ok? <==> dir.Some? && Glob(fs, dir.value, prefix, suffix) != []
  {
    if dir.None? then Err("TypeError: expected str, bytes or os.PathLike object, not float")
    else OpenMf(fs, Glob(fs, dir.value, prefix, suffix))
  }

  /** `xr.open_mfdataset(path)` for a path without wildcards. */
  function OpenPath(fs: Fs, path: string): (r: Result<Dataset>)
    ensures r.Ok? <==> path in fs.files
    ensures r.Ok? ==> r.value == fs.files[path]
  {
    OpenMf(fs, GlobExact(fs, path))
  }

  /** `utils.load_sd_data`: the observations over the target period and the
      bias-adjusted daily file over the application period, extra
      coordinates dropped. */
  function LoadSdData(fs: Fs, task: Task, refDir: Option<string>, baPath: string, dayBa: string): (r: Result<(Dataset, Dataset)>)
    ensures r.Ok? <==> OpenPattern(fs, refDir, task.variable + "_", ".nc").Ok? && PathJoin(baPath, dayBa) in fs.files
                       && Years(task.application).Ok? && Years(task.target).Ok?
    ensures r.Ok? ==> r.value.0 == Trim(OpenPattern(fs, refDir, task.variable + "_", ".nc").value, Years(task.target).value)
    ensures r.Ok? ==> r.value.1 == Trim(fs.files[PathJoin(baPath, dayBa)], Years(task.application).value)
  {
    var obs := OpenPattern(fs, refDir, task.variable + "_", ".nc");
    var sim := OpenPath(fs, PathJoin(baPath, dayBa));
    var app := Years(task.application);
    var target := Years(task.target);
    if obs.Err? then Err(obs.error)
    else if sim.Err? then Err(sim.error)
    else if app.Err? then Err(app.error)
    else if target.Err? then Err(target.error)
    else Ok((Trim(obs.value, target.value), Trim(sim.value, app.value)))
  }

  /** A loaded dataset cut to one period and one variable, as `load_ba_data`
      leaves each of its three datasets. */
  function Prepare(ds: Dataset, years: (int, int), variable: string): (r: Dataset)
    ensures r.coords == ds.coords * DimCoords && r.vars.Keys == ds.vars.Keys * {variable}
    ensures variable in ds.vars ==> forall c :: c in r.vars[variable] <==> c in ds.vars[variable] && years.0 <= c.year <= years.1
    ensures variable in ds.vars ==> forall c :: c in r.vars[variable] ==> r.vars[variable][c] == ds.vars[variable][c]
  {
    KeepOnly(Trim(ds, years), variable)
  }

  // ---------------------------------------------------------------------------
  // Settings changed between the steps

  /** `if reset_chunksizes: encoding['chunksizes'] = reset_chunk_sizes(encoding['chunksizes'], dims)` */
  function ResetEncoding(enc: Encoding, reset: bool, dims: map<string, nat>): (r: Result<Encoding>)
    ensures !reset ==> r == Ok(enc)
    ensures reset ==> (r.Ok? <==> enc.chunksizes.Some? && ResetChunkSizes(enc.chunksizes.value, dims).Ok?)
    ensures r.Ok? ==> r.value.settings == enc.settings
    ensures reset && r.Ok? ==> r.value.chunksizes == Some(ResetChunkSizes(enc.chunksizes.value, dims).value)
  {
    if !reset then Ok(enc)
    else if enc.chunksizes.None? then Err("KeyError: 'chunksizes'")
    else match ResetChunkSizes(enc.chunksizes.value, dims)
      case Ok(c) => Ok(Encoding(enc.settings, Some(c)))
      case Err(e) => Err(e)
  }

  /** Every dataset here is a time/lat/lon grid, so `Dims` always measures
      time, lat and lon and resetting a tuple read from the encoding table
      cannot fail on loaded data; the missing-dimension error is carried by
      `Utils.ResetOne` alone. */
  lemma ResetOnLoadedData(enc: Encoding, reset: bool, ds: Dataset)
    requires reset ==> enc.chunksizes.Some?
    ensures ResetEncoding(enc, reset, Dims(ds)).Ok?
  {
    var d := Dims(ds);
    assert "time" in d && "lat" in d && "lon" in d;
  }

  /** Steps 4 to 6 of every driver, with `get_encoding` and
      `get_attributes` as they are evidently meant (a missing chunk size falls
      back to the library default; missing global attributes fall back to
      none). */
  function ReadSettings(cfg: Config, variable: string): (r: Result<Settings>)
    requires ConfigOk(cfg)
    ensures r.Ok? <==> GetParameters(cfg.parameters, variable).Ok? && GetEncodingIntended(cfg.encoding).Ok?
                       && GetAttributesWithFallback(cfg.attributes, variable).Ok?
    ensures r.Ok? ==> r.value.params == GetParameters(cfg.parameters, variable).value
                      && r.value.attrs == GetAttributesWithFallback(cfg.attributes, variable).value
                      && (r.value.enc, r.value.reset) == GetEncodingIntended(cfg.encoding).value
    ensures r.Ok? ==> (r.value.reset <==> r.value.enc.chunksizes.Some?)
  {
    var params := GetParameters(cfg.parameters, variable);
    var enc := GetEncodingIntended(cfg.encoding);
    var attrs := GetAttributesWithFallback(cfg.attributes, variable);
    if params.Err? then Err(params.error)
    else if enc.Err? then Err(enc.error)
    else if attrs.Err? then Err(attrs.error)
    else Ok(Settings(params.value, enc.value.0, enc.value.1, attrs.value))
  }

  const RsdsCleared: set<string> := {"upper_bound", "upper_threshold", "trend_preservation"}

  /** For `rsds`, downscaling runs without the upper bound, the upper
      threshold and trend preservation; other variables keep their settings. */
  function RsdsRule(params: Params, variable: string): (r: Params)
    ensures variable != "rsds" ==> r == params
    ensures variable == "rsds" ==> r.Keys == params.Keys + RsdsCleared
    ensures variable == "rsds" ==> forall k :: k in r ==> r[k] == (if k in RsdsCleared then Null else params[k])
  {
    if variable == "rsds" then params["upper_bound" := Null]["upper_threshold" := Null]["trend_preservation" := Null]
    else params
  }

  /** `if ~run_object.monthly:` both monthly names become None. */
  function MonthRule(monthly: bool, names: Names): (r: Names)
    ensures r.monBa.Some? <==> monthly && names.monBa.Some?
    ensures r.monBasd.Some? <==> monthly && names.monBasd.Some?
    ensures r.monBa.Some? ==> r.monBa == names.monBa
    ensures r.monBasd.Some? ==> r.monBasd == names.monBasd
    ensures r.tempDir == names.tempDir && r.baPath == names.baPath && r.dayBa == names.dayBa
            && r.basdPath == names.basdPath && r.dayBasd == names.dayBasd && r.refPath == names.refPath
  {
    if Inverted(monthly) then names.(monBa := None, monBasd := None) else names
  }

  // ---------------------------------------------------------------------------
  // Writing and removing

  /** The files one library call leaves in `dir`: the daily file and, when a
      monthly name is given, the monthly means. */
  function WriteOutputs(fs: Fs, dir: string, day: string, month: Option<string>, ds: Dataset, lib: Library): (r: Fs)
    ensures r.dirs == fs.dirs
    ensures r.files.Keys == fs.files.Keys + {PathJoin(dir, day)} + (if month.Some? then {PathJoin(dir, month.value)} else {})
    ensures month.Some? ==> r.files[PathJoin(dir, month.value)] == lib.monthlyMeans(ds)
    ensures month.None? || PathJoin(dir, month.value) != PathJoin(dir, day) ==> r.files[PathJoin(dir, day)] == ds
    ensures forall p :: p in fs.files && p != PathJoin(dir, day) && (month.None? || p != PathJoin(dir, month.value)) ==> r.files[p] == fs.files[p]
  {
    var f := WriteFile(fs, PathJoin(dir, day), ds);
    if month.Some? then WriteFile(f, PathJoin(dir, month.value), lib.monthlyMeans(ds)) else f
  }

  /** `create_directories()`: each directory in turn, an existing one
      tolerated. */
  function EnsureDirs(fs: Fs, dirs: seq<string>): (r: Fs)
    ensures r.files == fs.files
    ensures fs.dirs <= r.dirs && forall d :: d in dirs ==> d in r.dirs
    decreases |dirs|
  {
    if dirs == [] then fs else EnsureDirs(EnsureDir(fs, dirs[0]), dirs[1..])
  }

  lemma {:induction false} EnsureDirsSnoc(fs: Fs, dirs: seq<string>, d: string)
    ensures EnsureDirs(fs, dirs + [d]) == EnsureDir(EnsureDirs(fs, dirs), d)
    decreases |dirs|
  {
    if dirs == [] {
      assert [d][1..] == [];
    } else {
      assert (dirs + [d])[1..] == dirs[1..] + [d];
      EnsureDirsSnoc(EnsureDir(fs, dirs[0]), dirs[1..], d);
    }
  }

  /** Creating directories that already exist changes nothing. */
  lemma {:induction false} EnsureDirsPresent(fs: Fs, dirs: seq<string>)
    requires forall d :: d in dirs ==> d in fs.dirs
    ensures EnsureDirs(fs, dirs) == fs
    decreases |dirs|
  {
    if dirs != [] {
      assert dirs[0] in dirs;
      assert EnsureDir(fs, dirs[0]) == fs;
      assert forall d :: d in dirs[1..] ==> d in dirs;
      EnsureDirsPresent(fs, dirs[1..]);
    }
  }

  /** Running `create_directories()` again is harmless. */
  lemma EnsureDirsIdempotent(fs: Fs, dirs: seq<string>)
    ensures EnsureDirs(EnsureDirs(fs, dirs), dirs) == EnsureDirs(fs, dirs)
  {
    EnsureDirsPresent(EnsureDirs(fs, dirs), dirs);
  }

  /** One statement of a clean-up block. */
  datatype Removal = File(path: string) | Tree(dir: string)

  function Apply(fs: Fs, op: Removal): (r: Result<Fs>)
    ensures r.Ok? ==> r.value.files.Keys <= fs.files.Keys && r.value.dirs <= fs.dirs
    ensures r.Ok? ==> forall p :: p in r.value.files ==> r.value.files[p] == fs.files[p]
  {
    match op
    case File(p) => RemoveFile(fs, p)
    case Tree(d) => RemoveTree(fs, d)
  }

  /** `try: <each removal in turn> except OSError: ...`: the block stops at
      the first removal that raises, and the error goes no further. */
  function Attempt(fs: Fs, ops: seq<Removal>): (r: Fs)
    ensures r.files.Keys <= fs.files.Keys && r.dirs <= fs.dirs
    ensures forall p :: p in r.files ==> r.files[p] == fs.files[p]
    decreases |ops|
  {
    if ops == [] then fs
    else match Apply(fs, ops[0])
      case Err(_) => fs
      case Ok(f) => Attempt(f, ops[1..])
  }

  /** `shutil.rmtree(dir)` inside such a block keeps exactly the files
      outside `dir`. */
  lemma {:induction false} AttemptTree(fs: Fs, dir: string)
    ensures forall p :: p in Attempt(fs, [Tree(dir)]).files <==> p in fs.files && (dir in fs.dirs ==> !Under(p, dir))
  {
    assert [Tree(dir)][1..] == [];
  }

  /** The daily clean-up as `downloaded.py` and `pangeo.py` write it: the
      bias-adjusted daily file, removed twice. */
  function DailyRemovalAsWritten(names: Names): seq<Removal> {
    [File(PathJoin(names.baPath, names.dayBa)), File(PathJoin(names.baPath, names.dayBa))]
  }

  /** The daily clean-up as `stitched.py` writes it, and as the other two
      drivers evidently mean it: the bias-adjusted, then the downscaled
      daily file. */
  function DailyRemoval(names: Names): seq<Removal> {
    [File(PathJoin(names.baPath, names.dayBa)), File(PathJoin(names.basdPath, names.dayBasd))]
  }

  /** As written, the second removal always raises, so the downscaled daily
      file is never removed, and nothing else is. */
  lemma {:induction false} DailyRemovalAsWrittenKeepsDownscaled(fs: Fs, names: Names)
    requires PathJoin(names.baPath, names.dayBa) in fs.files
    ensures Attempt(fs, DailyRemovalAsWritten(names)) == Fs(fs.files - {PathJoin(names.baPath, names.dayBa)}, fs.dirs)
    ensures PathJoin(names.basdPath, names.dayBasd) != PathJoin(names.baPath, names.dayBa) ==>
              (PathJoin(names.basdPath, names.dayBasd) in Attempt(fs, DailyRemovalAsWritten(names)).files
               <==> PathJoin(names.basdPath, names.dayBasd) in fs.files)
  {
    var p := PathJoin(names.baPath, names.dayBa);
    var ops := DailyRemovalAsWritten(names);
    var f := RemoveFile(fs, p).value;
    assert ops[1..] == [File(p)];
    assert ops[1..][1..] == [];
    assert Attempt(f, ops[1..]) == f;
  }

  /** The intended clean-up removes both daily files, and nothing else. */
  lemma {:induction false} DailyRemovalRemovesBoth(fs: Fs, names: Names)
    requires PathJoin(names.baPath, names.dayBa) in fs.files
    requires PathJoin(names.basdPath, names.dayBasd) in fs.files
    requires PathJoin(names.basdPath, names.dayBasd) != PathJoin(names.baPath, names.dayBa)
    ensures Attempt(fs, DailyRemoval(names)) == Fs(fs.files - {PathJoin(names.baPath, names.dayBa), PathJoin(names.basdPath, names.dayBasd)}, fs.dirs)
  {
    var p, q := PathJoin(names.baPath, names.dayBa), PathJoin(names.basdPath, names.dayBasd);
    var ops := DailyRemoval(names);
    var f := RemoveFile(fs, p).value;
    var g := RemoveFile(f, q).value;
    assert ops[1..] == [File(q)];
    assert ops[1..][1..] == [];
    assert Attempt(g, ops[1..][1..]) == g;
    assert g.files == fs.files - {p, q};
  }

  // ---------------------------------------------------------------------------
  // Bias adjustment, then downscaling

  /** Step 10 of every driver, on the file system left after bias adjustment
      and its clean-up: load, reset the chunk sizes against the
      observations, apply the rsds rule, downscale, remove the temporary
      directory and, unless daily output is wanted, the daily files. */
  function Downscale(fs: Fs, task: Task, names: Names, params: Params, attrs: Attributes,
                     enc: Encoding, reset: bool, lib: Library, daily: seq<Removal>): Report
  {
    match LoadSdData(fs, task, names.refPath, names.baPath, names.dayBa)
    case Err(e) => Report(fs, Some(e), [])
    case Ok(sd) =>
      match ResetEncoding(enc, reset, Dims(sd.0))
      case Err(e) => Report(fs, Some(e), [])
      case Ok(enc2) =>
        var p := RsdsRule(params, task.variable);
        var fs1 := WriteOutputs(fs, names.basdPath, names.dayBasd, names.monBasd, lib.downscale(sd.0, sd.1, task.variable, p), lib);
        var fs2 := Attempt(fs1, [Tree(names.tempDir)]);
        var fs3 := if Inverted(task.daily) then Attempt(fs2, daily) else fs2;
        Report(fs3, None, [Request(names.basdPath, names.dayBasd, names.monBasd, p, enc2, attrs)])
  }

  /** Downscaling is requested exactly when its data loads and the chunk
      reset succeeds, into the downscaled-output directory with the rsds rule
      applied; when it is not, nothing is changed. */
  lemma DownscaleRequests(fs: Fs, task: Task, names: Names, params: Params, attrs: Attributes,
                          enc: Encoding, reset: bool, lib: Library, daily: seq<Removal>)
    ensures var r := Downscale(fs, task, names, params, attrs, enc, reset, lib, daily);
            && (r.error.None? <==> LoadSdData(fs, task, names.refPath, names.baPath, names.dayBa).Ok?
                                   && ResetEncoding(enc, reset, Dims(LoadSdData(fs, task, names.refPath, names.baPath, names.dayBa).value.0)).Ok?)
            && (r.error.Some? ==> r.fs == fs && r.requests == [])
            && (r.error.None? ==> (|r.requests| == 1 && r.requests[0].dir == names.basdPath
                  && r.requests[0].dayFile == names.dayBasd && r.requests[0].monthFile == names.monBasd
                  && r.requests[0].params == RsdsRule(params, task.variable) && r.requests[0].attrs == attrs
                  && r.requests[0].encoding.settings == enc.settings))
  {
  }

  /** Steps 9 and 10 of every driver, from the loaded data to the end: the
      chunk sizes are reset against the simulation, the bias-adjusted files
      written, `afterBa` cleaned up, then `Downscale`. */
  function AdjustAndDownscale(fs: Fs, task: Task, names: Names, params: Params, attrs: Attributes,
                              enc: Encoding, reset: bool, data: Loaded, lib: Library,
                              afterBa: seq<Removal>, daily: seq<Removal>): Report
  {
    match ResetEncoding(enc, reset, Dims(data.simApp))
    case Err(e) => Report(fs, Some(e), [])
    case Ok(enc1) =>
      var adjusted := lib.adjust(data.obsRef, data.simRef, data.simApp, task.variable, params);
      var fs1 := WriteOutputs(fs, names.baPath, names.dayBa, names.monBa, adjusted, lib);
      var rest := Downscale(Attempt(fs1, afterBa), task, names, params, attrs, enc1, reset, lib, daily);
      Report(rest.fs, rest.error, [Request(names.baPath, names.dayBa, names.monBa, params, enc1, attrs)] + rest.requests)
  }

  /** When the first chunk reset fails, nothing is requested or changed. */
  lemma AdjustmentNeedsReset(fs: Fs, task: Task, names: Names, params: Params, attrs: Attributes,
                             enc: Encoding, reset: bool, data: Loaded, lib: Library,
                             afterBa: seq<Removal>, daily: seq<Removal>)
    requires ResetEncoding(enc, reset, Dims(data.simApp)).Err?
    ensures AdjustAndDownscale(fs, task, names, params, attrs, enc, reset, data, lib, afterBa, daily)
            == Report(fs, Some(ResetEncoding(enc, reset, Dims(data.simApp)).error), [])
  {
  }

  /** Otherwise bias adjustment is requested first, into the bias-adjusted
      output directory, with the table's parameters and the encoding reset
      against the simulation; a run that stops later made only that request. */
  lemma {:induction false} AdjustmentRequest(fs: Fs, task: Task, names: Names, params: Params, attrs: Attributes,
                                             enc: Encoding, reset: bool, data: Loaded, lib: Library,
                                             afterBa: seq<Removal>, daily: seq<Removal>)
    requires ResetEncoding(enc, reset, Dims(data.simApp)).Ok?
    ensures var r := AdjustAndDownscale(fs, task, names, params, attrs, enc, reset, data, lib, afterBa, daily);
            && 1 <= |r.requests|
            && r.requests[0] == Request(names.baPath, names.dayBa, names.monBa, params, ResetEncoding(enc, reset, Dims(data.simApp)).value, attrs)
            && (r.error.Some? ==> |r.requests| == 1)
  {
    var e1 := ResetEncoding(enc, reset, Dims(data.simApp)).value;
    var adjusted := lib.adjust(data.obsRef, data.simRef, data.simApp, task.variable, params);
    var fs1 := Attempt(WriteOutputs(fs, names.baPath, names.dayBa, names.monBa, adjusted, lib), afterBa);
    DownscaleRequests(fs1, task, names, params, attrs, e1, reset, lib, daily);
  }

  /** A completed run requests downscaling second, into the downscaled-output
      directory, with the rsds rule applied and the same attributes. */
  lemma {:induction false} DownscalingRequest(fs: Fs, task: Task, names: Names, params: Params, attrs: Attributes,
                                              enc: Encoding, reset: bool, data: Loaded, lib: Library,
                                              afterBa: seq<Removal>, daily: seq<Removal>)
    requires AdjustAndDownscale(fs, task, names, params, attrs, enc, reset, data, lib, afterBa, daily).error.None?
    ensures var r := AdjustAndDownscale(fs, task, names, params, attrs, enc, reset, data, lib, afterBa, daily);
            && |r.requests| == 2 && r.requests[1].dir == names.basdPath
            && r.requests[1].dayFile == names.dayBasd && r.requests[1].monthFile == names.monBasd
            && r.requests[1].params == RsdsRule(params, task.variable) && r.requests[1].attrs == attrs
  {
    var e1 := ResetEncoding(enc, reset, Dims(data.simApp)).value;
    var adjusted := lib.adjust(data.obsRef, data.simRef, data.simApp, task.variable, params);
    var fs1 := Attempt(WriteOutputs(fs, names.baPath, names.dayBa, names.monBa, adjusted, lib), afterBa);
    DownscaleRequests(fs1, task, names, params, attrs, e1, reset, lib, daily);
  }

  /** The second chunk reset changes nothing: once the first has replaced
      every 'max', the downscaled files get the chunk sizes measured on the
      coarse simulation grid, not on the observations' grid. */
  lemma ChunksFollowSimulationGrid(fs: Fs, task: Task, names: Names, params: Params, attrs: Attributes,
                                   enc: Encoding, data: Loaded, lib: Library,
                                   afterBa: seq<Removal>, daily: seq<Removal>)
    requires enc.chunksizes.Some?
    requires AdjustAndDownscale(fs, task, names, params, attrs, enc, true, data, lib, afterBa, daily).error.None?
    ensures var r := AdjustAndDownscale(fs, task, names, params, attrs, enc, true, data, lib, afterBa, daily);
            r.requests[1].encoding == r.requests[0].encoding
            && r.requests[0].encoding.chunksizes == Some(ResetChunkSizes(enc.chunksizes.value, Dims(data.simApp)).value)
  {
    ResetOnLoadedData(enc, true, data.simApp);
    var enc1 := ResetEncoding(enc, true, Dims(data.simApp)).value;
    var adjusted := lib.adjust(data.obsRef, data.simRef, data.simApp, task.variable, params);
    var fs1 := Attempt(WriteOutputs(fs, names.baPath, names.dayBa, names.monBa, adjusted, lib), afterBa);
    var sd := LoadSdData(fs1, task, names.refPath, names.baPath, names.dayBa).value;
    ResetChunkSizesIdempotent(enc.chunksizes.value, Dims(data.simApp), Dims(sd.0));
  }

  /** A completed run that keeps its daily output leaves the downscaled
      daily file in place, provided it lies outside the temporary directory. */
  lemma DownscaledOutputKept(fs: Fs, task: Task, names: Names, params: Params, attrs: Attributes,
                             enc: Encoding, reset: bool, lib: Library, daily: seq<Removal>)
    requires !Under(PathJoin(names.basdPath, names.dayBasd), names.tempDir)
    requires task.daily
    requires Downscale(fs, task, names, params, attrs, enc, reset, lib, daily).error.None?
    ensures PathJoin(names.basdPath, names.dayBasd) in Downscale(fs, task, names, params, attrs, enc, reset, lib, daily).fs.files
  {
    var sd := LoadSdData(fs, task, names.refPath, names.baPath, names.dayBa).value;
    var p := RsdsRule(params, task.variable);
    var fs1 := WriteOutputs(fs, names.basdPath, names.dayBasd, names.monBasd, lib.downscale(sd.0, sd.1, task.variable, p), lib);
    AttemptTree(fs1, names.tempDir);
  }

  // ---------------------------------------------------------------------------
  // The same steps on the file system in place

  method WriteOutputsTo(store: Store, dir: string, day: string, month: Option<string>, ds: Dataset, lib: Library)
    modifies store
    ensures store.State() == WriteOutputs(old(store.State()), dir, day, month, ds, lib)
  {
    store.Write(PathJoin(dir, day), ds);
    if month.Some? {
      store.Write(PathJoin(dir, month.value), lib.monthlyMeans(ds));
    }
  }

  /** Runs a clean-up block, statement by statement, until one raises. */
  method AttemptOn(store: Store, ops: seq<Removal>)
    modifies store
    ensures store.State() == Attempt(old(store.State()), ops)
  {
    var i := 0;
    while i < |ops|
      invariant 0 <= i <= |ops|
      invariant Attempt(old(store.State()), ops) == Attempt(store.State(), ops[i..])
    {
      var err: Option<string>;
      match ops[i] {
        case File(p) => err := store.Remove(p);
        case Tree(d) => err := store.RemoveDirectoryTree(d);
      }
      if err.Some? {
        return;
      }
      assert ops[i..][1..] == ops[i + 1..];
      i := i + 1;
    }
  }

  method DownscaleOn(store: Store, task: Task, names: Names, params: Params, attrs: Attributes,
                     enc: Encoding, reset: bool, lib: Library, daily: seq<Removal>) returns (r: Report)
    modifies store
    ensures r == Downscale(old(store.State()), task, names, params, attrs, enc, reset, lib, daily)
    ensures store.State() == r.fs
  {
    var sd := LoadSdData(store.State(), task, names.refPath, names.baPath, names.dayBa);
    if sd.Err? {
      return Report(store.State(), Some(sd.error), []);
    }
    var enc2 := ResetEncoding(enc, reset, Dims(sd.value.0));
    if enc2.Err? {
      return Report(store.State(), Some(enc2.error), []);
    }
    var p := RsdsRule(params, task.variable);
    WriteOutputsTo(store, names.basdPath, names.dayBasd, names.monBasd, lib.downscale(sd.value.0, sd.value.1, task.variable, p), lib);
    AttemptOn(store, [Tree(names.tempDir)]);
    if Inverted(task.daily) {
      AttemptOn(store, daily);
    }
    r := Report(store.State(), None, [Request(names.basdPath, names.dayBasd, names.monBasd, p, enc2.value, attrs)]);
  }

  method AdjustAndDownscaleOn(store: Store, task: Task, names: Names, params: Params, attrs: Attributes,
                              enc: Encoding, reset: bool, data: Loaded, lib: Library,
                              afterBa: seq<Removal>, daily: seq<Removal>) returns (r: Report)
    modifies store
    ensures r == AdjustAndDownscale(old(store.State()), task, names, params, attrs, enc, reset, data, lib, afterBa, daily)
    ensures store.State() == r.fs
  {
    var enc1 := ResetEncoding(enc, reset, Dims(data.simApp));
    if enc1.Err? {
      return Report(store.State(), Some(enc1.error), []);
    }
    WriteOutputsTo(store, names.baPath, names.dayBa, names.monBa, lib.adjust(data.obsRef, data.simRef, data.simApp, task.variable, params), lib);
    AttemptOn(store, afterBa);
    var rest := DownscaleOn(store, task, names, params, attrs, enc1.value, reset, lib, daily);
    r := Report(rest.fs, rest.error, [Request(names.baPath, names.dayBa, names.monBa, params, enc1.value, attrs)] + rest.requests);
  }
}
