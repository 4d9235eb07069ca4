/** The stage that derives tasrange and tasskew from tas, tasmin and tasmax
    before bias adjustment: once per ESM and scenario for STITCHES data, once
    per ESM, scenario and ensemble member for CMIP6 data, with Pangeo data
    fetched when a task has no input location. Every output is written only
    when no file of its name pattern exists yet. */
module RangeSkew {
  import opened Common
  import opened Transform
  import opened Files
  import opened Tasks
  import opened Catalogue

  /** The file system after a stage (or part of one) and the exception that
      ended it early, if any. */
  datatype Outcome = Outcome(fs: Fs, error: Option<string>)

  // ---------------------------------------------------------------------------
  // File names

  /** `stitched_{esm}_{variable}_{scenario}.nc` */
  function StitchedName(esm: string, variable: string, scenario: string): string {
    "stitched_" + esm + "_" + variable + "_" + scenario + ".nc"
  }

  /** `{variable}_day_{esm}_{scenario}_{ensemble}_`, the part of a CMIP6 daily
      file name before its date range. */
  function DailyPrefix(variable: string, esm: string, scenario: string, ensemble: string): string {
    variable + "_day_" + esm + "_" + scenario + "_" + ensemble + "_"
  }

  const NcSuffix: string := ".nc"

  /** The directory the Pangeo variant writes into, inside the run's
      intermediate directory. */
  function PangeoOutputDir(outputPath: string): string {
    PathJoin(outputPath, "tasrange_tasskew")
  }

  // ---------------------------------------------------------------------------
  // The forward transform on loaded data

  /** `tasmax_data['tasmax'] - tasmin_data['tasmin']` and
      `(tas_data['tas'] - tasmin_data['tasmin']) / tasrange_array`, each made
      into a one-variable dataset; a missing variable raises KeyError. */
  function Derive(tas: Dataset, tasmin: Dataset, tasmax: Dataset): (r: Result<(Dataset, Dataset)>)
    ensures r.Ok? <==> "tas" in tas.vars && "tasmin" in tasmin.vars && "tasmax" in tasmax.vars
    ensures r.Ok? ==> r.value.0.vars.Keys == {"tasrange"} && r.value.1.vars.Keys == {"tasskew"}
    ensures r.Ok? ==> r.value.0.vars["tasrange"] == RangeGrid(tasmax.vars["tasmax"], tasmin.vars["tasmin"])
    ensures r.Ok? ==> r.value.1.vars["tasskew"] == SkewGrid(tas.vars["tas"], tasmin.vars["tasmin"], r.value.0.vars["tasrange"])
  {
    if "tasmax" !in tasmax.vars then Err("KeyError: tasmax")
    else if "tasmin" !in tasmin.vars then Err("KeyError: tasmin")
    else if "tas" !in tas.vars then Err("KeyError: tas")
    else
      var range := RangeGrid(tasmax.vars["tasmax"], tasmin.vars["tasmin"]);
      Ok((ToDataset("tasrange", range), ToDataset("tasskew", SkewGrid(tas.vars["tas"], tasmin.vars["tasmin"], range))))
  }

  /** What this stage writes is enough to get tasmin and tasmax back: on
      finite inputs with the extremes apart, the inverse transform applied to
      the derived range and skew rebuilds them exactly. */
  lemma DeriveRoundTrip(tas: Dataset, tasmin: Dataset, tasmax: Dataset)
    requires "tas" in tas.vars && "tasmin" in tasmin.vars && "tasmax" in tasmax.vars
    requires Decomposable(tas.vars["tas"], tasmax.vars["tasmax"], tasmin.vars["tasmin"])
    ensures var d := Derive(tas, tasmin, tasmax).value;
            var lo := MinGrid(tas.vars["tas"], d.1.vars["tasskew"], d.0.vars["tasrange"]);
            lo == tasmin.vars["tasmin"] && MaxGrid(lo, d.0.vars["tasrange"]) == tasmax.vars["tasmax"]
  {
    GridRoundTrip(tas.vars["tas"], tasmax.vars["tasmax"], tasmin.vars["tasmin"]);
  }

  // ---------------------------------------------------------------------------
  // Write-if-absent

  /** Every file there before is still there, unchanged, and no directory is lost. */
  predicate Preserves(a: Fs, b: Fs) {
    (forall p :: p in a.files ==> p in b.files && b.files[p] == a.files[p]) && a.dirs <= b.dirs
  }

  lemma PreservesTransitive(a: Fs, b: Fs, c: Fs)
    requires Preserves(a, b) && Preserves(b, c)
    ensures Preserves(a, c)
  {
  }

  /** `if not glob(dir/prefix*.nc): ds.to_netcdf(dir/prefix{stamp}.nc)` */
  function Gate(fs: Fs, dir: string, prefix: string, stamp: string, ds: Dataset): (r: Fs)
    ensures Glob(fs, dir, prefix, NcSuffix) == [] ==> r == WriteFile(fs, PathJoin(dir, prefix + stamp + NcSuffix), ds)
    ensures Glob(fs, dir, prefix, NcSuffix) != [] ==> r == fs
  {
    if Glob(fs, dir, prefix, NcSuffix) == [] then WriteFile(fs, PathJoin(dir, prefix + stamp + NcSuffix), ds) else fs
  }

  /** A gated write never replaces an existing file: the name it writes
      matches its own pattern, so a file of that name would have stopped it. */
  lemma {:induction false} GateNeverOverwrites(fs: Fs, dir: string, prefix: string, stamp: string, ds: Dataset)
    requires prefix != [] && prefix[0] != '/' && '/' !in stamp
    ensures Preserves(fs, Gate(fs, dir, prefix, stamp, ds))
    ensures Gate(fs, dir, prefix, stamp, ds).files.Keys <= fs.files.Keys + {PathJoin(dir, prefix + stamp + NcSuffix)}
  {
    var path := PathJoin(dir, prefix + stamp + NcSuffix);
    if Glob(fs, dir, prefix, NcSuffix) == [] && path in fs.files {
      GlobSeesFile(fs, dir, prefix, stamp, NcSuffix);
      assert false;
    }
  }

  /** A name of one gated pattern is not found by a pattern whose prefix
      differs from its own in the fourth character ('tasrange_' against
      'tasskew_'). */
  lemma {:induction false} OtherPrefixNoMatch(dir: string, a: string, b: string, mid: string, suffix: string)
    requires |a| > 3 && |b| > 3 && a[0] != '/' && b[0] != '/' && a[3] != b[3]
    ensures !Matches(PathJoin(dir, a + mid + suffix), PathJoin(dir, b), suffix)
  {
    var name := a + mid + suffix;
    assert name[0] == a[0] && name[3] == a[3];
    var p := PathJoin(dir, name);
    var h := PathJoin(dir, b);
    var k := if dir == [] || dir[|dir| - 1] == '/' then |dir| + 3 else |dir| + 4;
    assert k < |h| && h[k] == b[3];
    if |h| <= |p| {
      assert p[k] == a[3];
      assert p[..|h|][k] != h[k];
    }
  }

  /** The two gated writes of one combination, tasrange then tasskew: with no
      tasrange file of the pattern, the new tasrange file holds `range`; with
      no tasskew file either, the new tasskew file holds `skew`. */
  lemma {:induction false} GatedPairWrites(fs: Fs, dir: string, esm: string, scenario: string, ensemble: string,
                                           s: string, range: Dataset, skew: Dataset)
    requires '/' !in s
    requires Glob(fs, dir, DailyPrefix("tasrange", esm, scenario, ensemble), NcSuffix) == []
    ensures var p1 := DailyPrefix("tasrange", esm, scenario, ensemble);
            var p2 := DailyPrefix("tasskew", esm, scenario, ensemble);
            var out := Gate(Gate(fs, dir, p1, s, range), dir, p2, s, skew);
            out.files[PathJoin(dir, p1 + s + NcSuffix)] == range
            && (Glob(fs, dir, p2, NcSuffix) == [] ==>
                  PathJoin(dir, p2 + s + NcSuffix) in out.files && out.files[PathJoin(dir, p2 + s + NcSuffix)] == skew)
  {
    var p1 := DailyPrefix("tasrange", esm, scenario, ensemble);
    var p2 := DailyPrefix("tasskew", esm, scenario, ensemble);
    assert p1[0] == 't' && p2[0] == 't' && p1[3] == 'r' && p2[3] == 's';
    var path1 := PathJoin(dir, p1 + s + NcSuffix);
    var f1 := Gate(fs, dir, p1, s, range);
    assert f1.files == fs.files[path1 := range];
    GateNeverOverwrites(f1, dir, p2, s, skew);
    if Glob(fs, dir, p2, NcSuffix) == [] {
      OtherPrefixNoMatch(dir, p1, p2, s, NcSuffix);
      forall q | q in f1.files ensures !Matches(q, PathJoin(dir, p2), NcSuffix) {
        if q != path1 {
          assert q in fs.files;
          assert q !in Glob(fs, dir, p2, NcSuffix);
        }
      }
      assert Glob(f1, dir, p2, NcSuffix) == [];
      assert Gate(f1, dir, p2, s, skew) == WriteFile(f1, PathJoin(dir, p2 + s + NcSuffix), skew);
    }
  }

  /** `if not glob(dir/name): ds.to_netcdf(dir/name)` */
  function ExactGate(fs: Fs, dir: string, name: string, ds: Dataset): (r: Fs)
    ensures PathJoin(dir, name) !in fs.files ==> r == WriteFile(fs, PathJoin(dir, name), ds)
    ensures PathJoin(dir, name) in fs.files ==> r == fs
    ensures Preserves(fs, r)
  {
    if GlobExact(fs, PathJoin(dir, name)) == [] then WriteFile(fs, PathJoin(dir, name), ds) else fs
  }

  // ---------------------------------------------------------------------------
  // STITCHES variant

  /** `run_details[(ESM == esm) & (Scenario == scenario)]['ESM_Input_Location'].values[0]` */
  function StitchedLocation(rows: seq<Task>, esm: string, scenario: string): (r: Result<Option<string>>)
    ensures r.Ok? <==> exists i :: 0 <= i < |rows| && rows[i].esm == esm && rows[i].scenario == scenario
    ensures r.Ok? ==> exists i :: 0 <= i < |rows| && rows[i].esm == esm && rows[i].scenario == scenario && rows[i].esmInput == r.value
  {
    var k := FirstWhere(rows, (t: Task) => t.esm == esm && t.scenario == scenario);
    if k.None? then Err("IndexError: index 0 is out of bounds") else Ok(rows[k.value].esmInput)
  }

  /** One ESM and scenario. `skipMissing` says what a missing input does:
      false is the code as written, where the `next` in the handler does
      nothing and the empty file list is then opened; true is the evidently
      intended skip. */
  function StitchedStep(fs: Fs, rows: seq<Task>, esm: string, scenario: string, skipMissing: bool): Outcome {
    var loc := StitchedLocation(rows, esm, scenario);
    if loc.Err? then Outcome(fs, Some(loc.error))
    else if loc.value.None? then Outcome(fs, Some("TypeError: expected str, not float"))
    else
      var dir := loc.value.value;
      var tasFiles := GlobExact(fs, PathJoin(dir, StitchedName(esm, "tas", scenario)));
      var tasmaxFiles := GlobExact(fs, PathJoin(dir, StitchedName(esm, "tasmax", scenario)));
      var tasminFiles := GlobExact(fs, PathJoin(dir, StitchedName(esm, "tasmin", scenario)));
      if skipMissing && (tasFiles == [] || tasmaxFiles == [] || tasminFiles == []) then Outcome(fs, None)
      else
        var tas := OpenMf(fs, tasFiles);
        var tasmin := OpenMf(fs, tasminFiles);
        var tasmax := OpenMf(fs, tasmaxFiles);
        if tas.Err? then Outcome(fs, Some(tas.error))
        else if tasmin.Err? then Outcome(fs, Some(tasmin.error))
        else if tasmax.Err? then Outcome(fs, Some(tasmax.error))
        else
          match Derive(tas.value, tasmin.value, tasmax.value)
          case Err(e) => Outcome(fs, Some(e))
          case Ok(d) =>
            var f1 := ExactGate(fs, dir, StitchedName(esm, "tasrange", scenario), d.0);
            Outcome(ExactGate(f1, dir, StitchedName(esm, "tasskew", scenario), d.1), None)
  }

  /** As written, a combination with an input missing ends the whole stage
      with an exception instead of being skipped. */
  lemma StitchedMissingInputAborts(fs: Fs, rows: seq<Task>, esm: string, scenario: string, dir: string, variable: string)
    requires StitchedLocation(rows, esm, scenario) == Ok(Some(dir))
    requires variable in ["tas", "tasmax", "tasmin"] && PathJoin(dir, StitchedName(esm, variable, scenario)) !in fs.files
    ensures StitchedStep(fs, rows, esm, scenario, false) == Outcome(fs, Some("OSError: no files to open"))
  {
  }

  /** With the intended skip, the same combination leaves the file system
      alone and the stage goes on. */
  lemma StitchedMissingInputSkipped(fs: Fs, rows: seq<Task>, esm: string, scenario: string, dir: string, variable: string)
    requires StitchedLocation(rows, esm, scenario) == Ok(Some(dir))
    requires variable in ["tas", "tasmax", "tasmin"] && PathJoin(dir, StitchedName(esm, variable, scenario)) !in fs.files
    ensures StitchedStep(fs, rows, esm, scenario, true) == Outcome(fs, None)
  {
  }

  /** With all inputs present, the stored tasrange and tasskew hold the
      transform of the inputs, unless a file of that name was already there. */
  lemma StitchedStepWrites(fs: Fs, rows: seq<Task>, esm: string, scenario: string, dir: string, skipMissing: bool)
    requires StitchedLocation(rows, esm, scenario) == Ok(Some(dir))
    requires forall v :: v in ["tas", "tasmax", "tasmin"] ==> PathJoin(dir, StitchedName(esm, v, scenario)) in fs.files
    requires "tas" in fs.files[PathJoin(dir, StitchedName(esm, "tas", scenario))].vars
    requires "tasmin" in fs.files[PathJoin(dir, StitchedName(esm, "tasmin", scenario))].vars
    requires "tasmax" in fs.files[PathJoin(dir, StitchedName(esm, "tasmax", scenario))].vars
    requires PathJoin(dir, StitchedName(esm, "tasrange", scenario)) !in fs.files
    ensures var o := StitchedStep(fs, rows, esm, scenario, skipMissing);
            var tasmax := fs.files[PathJoin(dir, StitchedName(esm, "tasmax", scenario))].vars["tasmax"];
            var tasmin := fs.files[PathJoin(dir, StitchedName(esm, "tasmin", scenario))].vars["tasmin"];
            o.error.None? && PathJoin(dir, StitchedName(esm, "tasrange", scenario)) in o.fs.files &&
            o.fs.files[PathJoin(dir, StitchedName(esm, "tasrange", scenario))] == ToDataset("tasrange", RangeGrid(tasmax, tasmin))
  {
    var names := ["tas", "tasmax", "tasmin"];
    assert names[0] in names && names[1] in names && names[2] in names;
    var rangeName := StitchedName(esm, "tasrange", scenario);
    var skewName := StitchedName(esm, "tasskew", scenario);
    assert rangeName != skewName by {
      var head := "stitched_" + esm + "_";
      assert rangeName == head + "tasrange" + ("_" + scenario + ".nc");
      assert skewName == head + "tasskew" + ("_" + scenario + ".nc");
      assert rangeName[|head| + 3] == 'r';
      assert skewName[|head| + 3] == 's';
    }
    assert PathJoin(dir, rangeName) != PathJoin(dir, skewName) by {
      PathJoinInjective(dir, rangeName, skewName);
    }
  }

  /** Distinct relative names give distinct paths under one directory. */
  lemma PathJoinInjective(dir: string, a: string, b: string)
    requires a != b && a != [] && b != [] && a[0] != '/' && b[0] != '/'
    ensures PathJoin(dir, a) != PathJoin(dir, b)
  {
    if dir == [] || dir[|dir| - 1] == '/' {
      assert PathJoin(dir, a)[|dir|..] == a && PathJoin(dir, b)[|dir|..] == b;
    } else {
      assert PathJoin(dir, a)[|dir| + 1..] == a && PathJoin(dir, b)[|dir| + 1..] == b;
    }
  }

  /** A STITCHES combination never changes or removes a file that was there. */
  lemma StitchedStepPreserves(fs: Fs, rows: seq<Task>, esm: string, scenario: string, skipMissing: bool)
    ensures Preserves(fs, StitchedStep(fs, rows, esm, scenario, skipMissing).fs)
  {
  }

  /** The nested loops over unique ESMs and scenarios, stopping at the first
      exception. */
  function RunStitched(fs: Fs, rows: seq<Task>, combos: seq<(string, string)>, skipMissing: bool): Outcome
    decreases |combos|
  {
    if combos == [] then Outcome(fs, None)
    else
      var o := StitchedStep(fs, rows, combos[0].0, combos[0].1, skipMissing);
      if o.error.Some? then o else RunStitched(o.fs, rows, combos[1..], skipMissing)
  }

  /** One turn of the loop from position `i`. */
  lemma RunStitchedAt(fs: Fs, rows: seq<Task>, combos: seq<(string, string)>, i: nat, skipMissing: bool)
    requires i < |combos|
    ensures var o := StitchedStep(fs, rows, combos[i].0, combos[i].1, skipMissing);
            RunStitched(fs, rows, combos[i..], skipMissing) == if o.error.Some? then o else RunStitched(o.fs, rows, combos[i + 1..], skipMissing)
  {
    assert combos[i..][0] == combos[i] && combos[i..][1..] == combos[i + 1..];
  }

  /** The ESM/scenario pairs in loop order: ESM outer, scenario inner. */
  function StitchedCombos(rows: seq<Task>): (r: seq<(string, string)>)
    ensures forall esm, scenario :: (esm, scenario) in r <==>
              (exists i :: 0 <= i < |rows| && rows[i].esm == esm) && (exists j :: 0 <= j < |rows| && rows[j].scenario == scenario)
  {
    var esms := UniqueOf(rows, (t: Task) => t.esm);
    var scenarios := UniqueOf(rows, (t: Task) => t.scenario);
    forall esm, scenario ensures (esm, scenario) in Product(esms, scenarios) <==> esm in esms && scenario in scenarios {
      ProductCovers(esms, scenarios, esm, scenario);
    }
    Product(esms, scenarios)
  }

  /** The STITCHES stage never changes or removes a file that was there,
      however far it gets. */
  lemma {:induction false} RunStitchedPreserves(fs: Fs, rows: seq<Task>, combos: seq<(string, string)>, skipMissing: bool)
    ensures Preserves(fs, RunStitched(fs, rows, combos, skipMissing).fs)
    decreases |combos|
  {
    if combos != [] {
      var o := StitchedStep(fs, rows, combos[0].0, combos[0].1, skipMissing);
      StitchedStepPreserves(fs, rows, combos[0].0, combos[0].1, skipMissing);
      if o.error.None? {
        RunStitchedPreserves(o.fs, rows, combos[1..], skipMissing);
        PreservesTransitive(fs, o.fs, RunStitched(o.fs, rows, combos[1..], skipMissing).fs);
      }
    }
  }

  // ---------------------------------------------------------------------------
  // Pangeo variant

  /** `create_tasrange_tasskew_pangeo(output_path, esm, scenario, ensemble)` */
  function PangeoStep(fs: Fs, outputPath: string, archive: seq<ArchiveRow>, remote: map<string, Dataset>,
                      stamp: Dataset -> string, esm: string, scenario: string, ensemble: string): Outcome
  {
    var table := NativeGridTable(archive);
    var tasUrl := StoreOf(table, "tas", esm, scenario, ensemble);
    var tasmaxUrl := StoreOf(table, "tasmax", esm, scenario, ensemble);
    var tasminUrl := StoreOf(table, "tasmin", esm, scenario, ensemble);
    if tasUrl.Err? then Outcome(fs, Some(tasUrl.error))
    else if tasmaxUrl.Err? then Outcome(fs, Some(tasmaxUrl.error))
    else if tasminUrl.Err? then Outcome(fs, Some(tasminUrl.error))
    else
      var tas := Fetch(remote, tasUrl.value);
      var tasmax := Fetch(remote, tasmaxUrl.value);
      var tasmin := Fetch(remote, tasminUrl.value);
      if tas.Err? then Outcome(fs, Some(tas.error))
      else if tasmax.Err? then Outcome(fs, Some(tasmax.error))
      else if tasmin.Err? then Outcome(fs, Some(tasmin.error))
      else
        match Derive(tas.value, tasmin.value, tasmax.value)
        case Err(e) => Outcome(fs, Some(e))
        case Ok(d) =>
          var dir := PangeoOutputDir(outputPath);
          var f0 := EnsureDir(fs, dir);
          var s := stamp(tas.value);
          var f1 := Gate(f0, dir, DailyPrefix("tasrange", esm, scenario, ensemble), s, d.0);
          Outcome(Gate(f1, dir, DailyPrefix("tasskew", esm, scenario, ensemble), s, d.1), None)
  }

  /** The Pangeo variant only adds files and directories. */
  lemma PangeoStepPreserves(fs: Fs, outputPath: string, archive: seq<ArchiveRow>, remote: map<string, Dataset>,
                            stamp: Dataset -> string, esm: string, scenario: string, ensemble: string)
    requires forall ds :: '/' !in stamp(ds)
    ensures Preserves(fs, PangeoStep(fs, outputPath, archive, remote, stamp, esm, scenario, ensemble).fs)
  {
    var table := NativeGridTable(archive);
    var tasUrl := StoreOf(table, "tas", esm, scenario, ensemble);
    var tasmaxUrl := StoreOf(table, "tasmax", esm, scenario, ensemble);
    var tasminUrl := StoreOf(table, "tasmin", esm, scenario, ensemble);
    if tasUrl.Ok? && tasmaxUrl.Ok? && tasminUrl.Ok? {
      var tas := Fetch(remote, tasUrl.value);
      var tasmax := Fetch(remote, tasmaxUrl.value);
      var tasmin := Fetch(remote, tasminUrl.value);
      if tas.Ok? && tasmax.Ok? && tasmin.Ok? && Derive(tas.value, tasmin.value, tasmax.value).Ok? {
        var d := Derive(tas.value, tasmin.value, tasmax.value).value;
        var dir := PangeoOutputDir(outputPath);
        var f0 := EnsureDir(fs, dir);
        var s := stamp(tas.value);
        var p1 := DailyPrefix("tasrange", esm, scenario, ensemble);
        var p2 := DailyPrefix("tasskew", esm, scenario, ensemble);
        assert p1[0] == 't' && p2[0] == 't';
        var f1 := Gate(f0, dir, p1, s, d.0);
        GateNeverOverwrites(f0, dir, p1, s, d.0);
        GateNeverOverwrites(f1, dir, p2, s, d.1);
      }
    }
  }

  /** A Pangeo combination whose three stores are listed and reachable writes
      into the run's tasrange_tasskew directory: tasrange as the difference of
      the fetched extremes, unless a tasrange file of the pattern is there,
      and tasskew from that range, unless a tasskew file of the pattern is
      there. */
  lemma {:induction false} PangeoStepWrites(fs: Fs, outputPath: string, archive: seq<ArchiveRow>, remote: map<string, Dataset>,
                                            stamp: Dataset -> string, esm: string, scenario: string, ensemble: string,
                                            tasUrl: string, tasmaxUrl: string, tasminUrl: string)
    requires StoreOf(NativeGridTable(archive), "tas", esm, scenario, ensemble) == Ok(tasUrl)
    requires StoreOf(NativeGridTable(archive), "tasmax", esm, scenario, ensemble) == Ok(tasmaxUrl)
    requires StoreOf(NativeGridTable(archive), "tasmin", esm, scenario, ensemble) == Ok(tasminUrl)
    requires tasUrl in remote && tasmaxUrl in remote && tasminUrl in remote
    requires "tas" in remote[tasUrl].vars && "tasmax" in remote[tasmaxUrl].vars && "tasmin" in remote[tasminUrl].vars
    requires '/' !in stamp(remote[tasUrl])
    requires Glob(fs, PangeoOutputDir(outputPath), DailyPrefix("tasrange", esm, scenario, ensemble), NcSuffix) == []
    ensures var o := PangeoStep(fs, outputPath, archive, remote, stamp, esm, scenario, ensemble);
            var dir := PangeoOutputDir(outputPath);
            var s := stamp(remote[tasUrl]);
            var range := RangeGrid(remote[tasmaxUrl].vars["tasmax"], remote[tasminUrl].vars["tasmin"]);
            o.error.None? && dir in o.fs.dirs
            && PathJoin(dir, DailyPrefix("tasrange", esm, scenario, ensemble) + s + NcSuffix) in o.fs.files
            && o.fs.files[PathJoin(dir, DailyPrefix("tasrange", esm, scenario, ensemble) + s + NcSuffix)] == ToDataset("tasrange", range)
            && (Glob(fs, dir, DailyPrefix("tasskew", esm, scenario, ensemble), NcSuffix) == [] ==>
                  PathJoin(dir, DailyPrefix("tasskew", esm, scenario, ensemble) + s + NcSuffix) in o.fs.files &&
                  o.fs.files[PathJoin(dir, DailyPrefix("tasskew", esm, scenario, ensemble) + s + NcSuffix)]
                  == ToDataset("tasskew", SkewGrid(remote[tasUrl].vars["tas"], remote[tasminUrl].vars["tasmin"], range)))
  {
    var dir := PangeoOutputDir(outputPath);
    var d := Derive(remote[tasUrl], remote[tasminUrl], remote[tasmaxUrl]).value;
    var f0 := EnsureDir(fs, dir);
    assert Glob(f0, dir, DailyPrefix("tasskew", esm, scenario, ensemble), NcSuffix) == Glob(fs, dir, DailyPrefix("tasskew", esm, scenario, ensemble), NcSuffix);
    assert Glob(f0, dir, DailyPrefix("tasrange", esm, scenario, ensemble), NcSuffix) == [];
    GatedPairWrites(f0, dir, esm, scenario, ensemble, stamp(remote[tasUrl]), d.0, d.1);
  }

  // ---------------------------------------------------------------------------
  // CMIP6 variant

  /** The input-location lookup: for 'historical' the rows of the ESM and
      ensemble member, whatever their scenario; otherwise the rows of that
      scenario too. No such row raises IndexError. */
  function CmipLocation(rows: seq<Task>, esm: string, scenario: string, ensemble: string): (r: Result<Option<string>>)
    ensures r.Ok? <==> exists i :: 0 <= i < |rows| && rows[i].esm == esm && rows[i].ensemble == ensemble
                                    && (scenario == "historical" || rows[i].scenario == scenario)
    ensures r.Ok? ==> exists i :: 0 <= i < |rows| && rows[i].esm == esm && rows[i].ensemble == ensemble
                                    && (scenario == "historical" || rows[i].scenario == scenario) && rows[i].esmInput == r.value
  {
    var k := if scenario == "historical" then FirstWhere(rows, (t: Task) => t.esm == esm && t.ensemble == ensemble)
             else FirstWhere(rows, (t: Task) => t.esm == esm && t.scenario == scenario && t.ensemble == ensemble);
    if k.None? then Err("IndexError: index 0 is out of bounds") else Ok(rows[k.value].esmInput)
  }

  /** The historical lookup does not look at the Scenario column at all. */
  lemma HistoricalIgnoresScenario(rows: seq<Task>, other: seq<Task>, esm: string, ensemble: string)
    requires |rows| == |other|
    requires forall i :: 0 <= i < |rows| ==> rows[i].(scenario := other[i].scenario) == other[i]
    ensures CmipLocation(rows, esm, "historical", ensemble) == CmipLocation(other, esm, "historical", ensemble)
  {
    var p := (t: Task) => t.esm == esm && t.ensemble == ensemble;
    var a := FirstWhere(rows, p);
    var b := FirstWhere(other, p);
    assert forall i :: 0 <= i < |rows| ==> p(rows[i]) == p(other[i]) && rows[i].esmInput == other[i].esmInput by {
      forall i | 0 <= i < |rows| ensures p(rows[i]) == p(other[i]) && rows[i].esmInput == other[i].esmInput {
        assert rows[i].(scenario := other[i].scenario) == other[i];
      }
    }
  }

  /** One ESM, scenario and ensemble member. */
  function CmipStep(fs: Fs, rows: seq<Task>, outputPath: string, archive: seq<ArchiveRow>, remote: map<string, Dataset>,
                    stamp: Dataset -> string, esm: string, scenario: string, ensemble: string): Outcome
  {
    var loc := CmipLocation(rows, esm, scenario, ensemble);
    if loc.Err? then Outcome(fs, Some(loc.error))
    else if loc.value.None? then PangeoStep(fs, outputPath, archive, remote, stamp, esm, scenario, ensemble)
    else CmipFromDir(fs, loc.value.value, stamp, esm, scenario, ensemble)
  }

  /** The body of the combination once its input location `dir` is known:
      skip when an input is missing, otherwise derive and write the gated pair
      next to the inputs. */
  function CmipFromDir(fs: Fs, dir: string, stamp: Dataset -> string, esm: string, scenario: string, ensemble: string): Outcome
  {
    var tasFiles := Glob(fs, dir, DailyPrefix("tas", esm, scenario, ensemble), NcSuffix);
    var tasmaxFiles := Glob(fs, dir, DailyPrefix("tasmax", esm, scenario, ensemble), NcSuffix);
    var tasminFiles := Glob(fs, dir, DailyPrefix("tasmin", esm, scenario, ensemble), NcSuffix);
    if tasFiles == [] || tasmaxFiles == [] || tasminFiles == [] then Outcome(fs, None)
    else
      var tas := OpenMf(fs, tasFiles);
      var tasmin := OpenMf(fs, tasminFiles);
      var tasmax := OpenMf(fs, tasmaxFiles);
      match Derive(tas.value, tasmin.value, tasmax.value)
      case Err(e) => Outcome(fs, Some(e))
      case Ok(d) =>
        var s := stamp(tas.value);
        var f1 := Gate(fs, dir, DailyPrefix("tasrange", esm, scenario, ensemble), s, d.0);
        Outcome(Gate(f1, dir, DailyPrefix("tasskew", esm, scenario, ensemble), s, d.1), None)
  }

  /** A task without an input location is handed to the Pangeo variant, whose
      exception, if any, is raised again. */
  lemma CmipMissingLocationUsesPangeo(fs: Fs, rows: seq<Task>, outputPath: string, archive: seq<ArchiveRow>, remote: map<string, Dataset>,
                                      stamp: Dataset -> string, esm: string, scenario: string, ensemble: string)
    requires CmipLocation(rows, esm, scenario, ensemble) == Ok(None)
    ensures CmipStep(fs, rows, outputPath, archive, remote, stamp, esm, scenario, ensemble)
            == PangeoStep(fs, outputPath, archive, remote, stamp, esm, scenario, ensemble)
  {
  }

  /** A combination lacking any tas, tasmax or tasmin file is skipped: nothing
      is written and the stage goes on. */
  lemma CmipMissingInputSkipped(fs: Fs, rows: seq<Task>, outputPath: string, archive: seq<ArchiveRow>, remote: map<string, Dataset>,
                                stamp: Dataset -> string, esm: string, scenario: string, ensemble: string, dir: string, variable: string)
    requires CmipLocation(rows, esm, scenario, ensemble) == Ok(Some(dir))
    requires variable in ["tas", "tasmax", "tasmin"]
    requires forall p :: p in fs.files ==> !Matches(p, PathJoin(dir, DailyPrefix(variable, esm, scenario, ensemble)), NcSuffix)
    ensures CmipStep(fs, rows, outputPath, archive, remote, stamp, esm, scenario, ensemble) == Outcome(fs, None)
  {
    var names := ["tas", "tasmax", "tasmin"];
    assert Glob(fs, dir, DailyPrefix(variable, esm, scenario, ensemble), NcSuffix) == [];
    if variable == names[0] {
      assert Glob(fs, dir, DailyPrefix("tas", esm, scenario, ensemble), NcSuffix) == [];
    } else if variable == names[1] {
      assert Glob(fs, dir, DailyPrefix("tasmax", esm, scenario, ensemble), NcSuffix) == [];
    } else {
      assert Glob(fs, dir, DailyPrefix("tasmin", esm, scenario, ensemble), NcSuffix) == [];
    }
  }

  /** A CMIP6 combination whose tas, tasmax and tasmin files are all found
      writes, next to them, tasrange as the difference of the opened extremes,
      unless a tasrange file of the pattern is there, and tasskew from that
      range, unless a tasskew file of the pattern is there. */
  lemma {:induction false} CmipStepWrites(fs: Fs, rows: seq<Task>, outputPath: string, archive: seq<ArchiveRow>, remote: map<string, Dataset>,
                                          stamp: Dataset -> string, esm: string, scenario: string, ensemble: string, dir: string,
                                          tas: Dataset, tasmax: Dataset, tasmin: Dataset)
    requires CmipLocation(rows, esm, scenario, ensemble) == Ok(Some(dir))
    requires OpenMf(fs, Glob(fs, dir, DailyPrefix("tas", esm, scenario, ensemble), NcSuffix)) == Ok(tas)
    requires OpenMf(fs, Glob(fs, dir, DailyPrefix("tasmax", esm, scenario, ensemble), NcSuffix)) == Ok(tasmax)
    requires OpenMf(fs, Glob(fs, dir, DailyPrefix("tasmin", esm, scenario, ensemble), NcSuffix)) == Ok(tasmin)
    requires "tas" in tas.vars && "tasmax" in tasmax.vars && "tasmin" in tasmin.vars
    requires '/' !in stamp(tas)
    requires Glob(fs, dir, DailyPrefix("tasrange", esm, scenario, ensemble), NcSuffix) == []
    ensures var o := CmipStep(fs, rows, outputPath, archive, remote, stamp, esm, scenario, ensemble);
            var range := RangeGrid(tasmax.vars["tasmax"], tasmin.vars["tasmin"]);
            var rangePath := PathJoin(dir, DailyPrefix("tasrange", esm, scenario, ensemble) + stamp(tas) + NcSuffix);
            var skewPath := PathJoin(dir, DailyPrefix("tasskew", esm, scenario, ensemble) + stamp(tas) + NcSuffix);
            o.error.None? && rangePath in o.fs.files && o.fs.files[rangePath] == ToDataset("tasrange", range)
            && (Glob(fs, dir, DailyPrefix("tasskew", esm, scenario, ensemble), NcSuffix) == [] ==>
                  skewPath in o.fs.files && o.fs.files[skewPath] == ToDataset("tasskew", SkewGrid(tas.vars["tas"], tasmin.vars["tasmin"], range)))
  {
    var d := Derive(tas, tasmin, tasmax).value;
    assert CmipStep(fs, rows, outputPath, archive, remote, stamp, esm, scenario, ensemble)
           == CmipFromDir(fs, dir, stamp, esm, scenario, ensemble);
    CmipFromDirFound(fs, stamp, esm, scenario, ensemble, dir, tas, tasmax, tasmin);
    GatedPairWrites(fs, dir, esm, scenario, ensemble, stamp(tas), d.0, d.1);
  }

  /** The combination's outcome once its three inputs are found. */
  lemma CmipFromDirFound(fs: Fs, stamp: Dataset -> string, esm: string, scenario: string, ensemble: string, dir: string,
                         tas: Dataset, tasmax: Dataset, tasmin: Dataset)
    requires OpenMf(fs, Glob(fs, dir, DailyPrefix("tas", esm, scenario, ensemble), NcSuffix)) == Ok(tas)
    requires OpenMf(fs, Glob(fs, dir, DailyPrefix("tasmax", esm, scenario, ensemble), NcSuffix)) == Ok(tasmax)
    requires OpenMf(fs, Glob(fs, dir, DailyPrefix("tasmin", esm, scenario, ensemble), NcSuffix)) == Ok(tasmin)
    requires Derive(tas, tasmin, tasmax).Ok?
    ensures var d := Derive(tas, tasmin, tasmax).value;
            CmipFromDir(fs, dir, stamp, esm, scenario, ensemble)
            == Outcome(Gate(Gate(fs, dir, DailyPrefix("tasrange", esm, scenario, ensemble), stamp(tas), d.0),
                            dir, DailyPrefix("tasskew", esm, scenario, ensemble), stamp(tas), d.1), None)
  {
  }

  /** A CMIP6 combination never changes or removes a file that was there, so
      long as the date stamps in its names hold no path separator (they are
      `%Y%m%d-%Y%m%d`). */
  lemma CmipStepPreserves(fs: Fs, rows: seq<Task>, outputPath: string, archive: seq<ArchiveRow>, remote: map<string, Dataset>,
                          stamp: Dataset -> string, esm: string, scenario: string, ensemble: string)
    requires forall ds :: '/' !in stamp(ds)
    ensures Preserves(fs, CmipStep(fs, rows, outputPath, archive, remote, stamp, esm, scenario, ensemble).fs)
  {
    var loc := CmipLocation(rows, esm, scenario, ensemble);
    if loc.Ok? && loc.value.None? {
      PangeoStepPreserves(fs, outputPath, archive, remote, stamp, esm, scenario, ensemble);
    } else if loc.Ok? {
      var dir := loc.value.value;
      var tasFiles := Glob(fs, dir, DailyPrefix("tas", esm, scenario, ensemble), NcSuffix);
      var tasmaxFiles := Glob(fs, dir, DailyPrefix("tasmax", esm, scenario, ensemble), NcSuffix);
      var tasminFiles := Glob(fs, dir, DailyPrefix("tasmin", esm, scenario, ensemble), NcSuffix);
      if tasFiles != [] && tasmaxFiles != [] && tasminFiles != [] {
        var tas := OpenMf(fs, tasFiles);
        var tasmin := OpenMf(fs, tasminFiles);
        var tasmax := OpenMf(fs, tasmaxFiles);
        var d := Derive(tas.value, tasmin.value, tasmax.value);
        if d.Ok? {
          var s := stamp(tas.value);
          var p1 := DailyPrefix("tasrange", esm, scenario, ensemble);
          var p2 := DailyPrefix("tasskew", esm, scenario, ensemble);
          assert p1[0] == 't' && p2[0] == 't';
          var f1 := Gate(fs, dir, p1, s, d.value.0);
          GateNeverOverwrites(fs, dir, p1, s, d.value.0);
          GateNeverOverwrites(f1, dir, p2, s, d.value.1);
        }
      }
    }
  }

  /** The scenarios visited: the unique ones, then 'historical'. */
  function CmipScenarios(rows: seq<Task>): (r: seq<string>)
    ensures |r| >= 1 && r[|r| - 1] == "historical"
    ensures forall x :: x in r <==> x == "historical" || exists i :: 0 <= i < |rows| && rows[i].scenario == x
  {
    UniqueOf(rows, (t: Task) => t.scenario) + ["historical"]
  }

  /** The (ESM, (scenario, ensemble)) triples in loop order. */
  function CmipCombos(rows: seq<Task>): (r: seq<(string, (string, string))>)
    ensures forall esm, scenario, ensemble :: (esm, (scenario, ensemble)) in r <==>
              (exists i :: 0 <= i < |rows| && rows[i].esm == esm) && scenario in CmipScenarios(rows) &&
              (exists j :: 0 <= j < |rows| && rows[j].ensemble == ensemble)
  {
    var esms := UniqueOf(rows, (t: Task) => t.esm);
    var scenarios := CmipScenarios(rows);
    var ensembles := UniqueOf(rows, (t: Task) => t.ensemble);
    forall esm, scenario, ensemble
      ensures (esm, (scenario, ensemble)) in Product(esms, Product(scenarios, ensembles)) <==>
              (exists i :: 0 <= i < |rows| && rows[i].esm == esm) && scenario in scenarios &&
              (exists j :: 0 <= j < |rows| && rows[j].ensemble == ensemble)
    {
      ProductCovers(scenarios, ensembles, scenario, ensemble);
      ProductCovers(esms, Product(scenarios, ensembles), esm, (scenario, ensemble));
      assert esm in esms <==> exists i :: 0 <= i < |rows| && rows[i].esm == esm;
      assert ensemble in ensembles <==> exists j :: 0 <= j < |rows| && rows[j].ensemble == ensemble;
    }
    Product(esms, Product(scenarios, ensembles))
  }

  function RunCmip(fs: Fs, rows: seq<Task>, outputPath: string, archive: seq<ArchiveRow>, remote: map<string, Dataset>,
                   stamp: Dataset -> string, combos: seq<(string, (string, string))>): Outcome
    decreases |combos|
  {
    if combos == [] then Outcome(fs, None)
    else
      var o := CmipStep(fs, rows, outputPath, archive, remote, stamp, combos[0].0, combos[0].1.0, combos[0].1.1);
      if o.error.Some? then o else RunCmip(o.fs, rows, outputPath, archive, remote, stamp, combos[1..])
  }

  /** The CMIP6 stage never changes or removes a file that was there,
      however far it gets. */
  lemma {:induction false} RunCmipPreserves(fs: Fs, rows: seq<Task>, outputPath: string, archive: seq<ArchiveRow>, remote: map<string, Dataset>,
                                            stamp: Dataset -> string, combos: seq<(string, (string, string))>)
    requires forall ds :: '/' !in stamp(ds)
    ensures Preserves(fs, RunCmip(fs, rows, outputPath, archive, remote, stamp, combos).fs)
    decreases |combos|
  {
    if combos != [] {
      var o := CmipStep(fs, rows, outputPath, archive, remote, stamp, combos[0].0, combos[0].1.0, combos[0].1.1);
      CmipStepPreserves(fs, rows, outputPath, archive, remote, stamp, combos[0].0, combos[0].1.0, combos[0].1.1);
      if o.error.None? {
        RunCmipPreserves(o.fs, rows, outputPath, archive, remote, stamp, combos[1..]);
        PreservesTransitive(fs, o.fs, RunCmip(o.fs, rows, outputPath, archive, remote, stamp, combos[1..]).fs);
      }
    }
  }

  // ---------------------------------------------------------------------------
  // The script

  /** The tasks asking for tasrange or tasskew. */
  function RangeSkewTasks(list: TaskList): (r: TaskList)
    ensures r.hasStitched == list.hasStitched
    ensures forall i :: 0 <= i < |r.rows| ==> r.rows[i] in list.rows && r.rows[i].variable in {"tasrange", "tasskew"}
    ensures forall i :: 0 <= i < |list.rows| && list.rows[i].variable in {"tasrange", "tasskew"} ==> list.rows[i] in r.rows
  {
    TaskList(Filter(list.rows, (t: Task) => t.variable == "tasrange" || t.variable == "tasskew"), list.hasStitched)
  }

  /** The run's intermediate directory, where the task list is read and the
      Pangeo variant writes. */
  function IntermediateDir(runDirectory: string): string {
    PathJoin("intermediate", runDirectory)
  }

  /** The whole script: keep the tasrange/tasskew tasks, then run the
      STITCHES or the CMIP6 variant according to the first task's flag. */
  function RunScript(fs: Fs, list: TaskList, runDirectory: string, archive: seq<ArchiveRow>, remote: map<string, Dataset>,
                     stamp: Dataset -> string, skipMissing: bool): Outcome
  {
    var tasks := RangeSkewTasks(list);
    match FirstIsStitched(tasks)
    case Err(e) => Outcome(fs, Some(e))
    case Ok(true) => RunStitched(fs, tasks.rows, StitchedCombos(tasks.rows), skipMissing)
    case Ok(false) => RunCmip(fs, tasks.rows, IntermediateDir(runDirectory), archive, remote, stamp, CmipCombos(tasks.rows))
  }

  /** Whatever the tasks, catalogue and inputs, the stage never changes or
      removes an existing file: every output goes through the gate. */
  lemma RunScriptPreserves(fs: Fs, list: TaskList, runDirectory: string, archive: seq<ArchiveRow>, remote: map<string, Dataset>,
                           stamp: Dataset -> string, skipMissing: bool)
    requires forall ds :: '/' !in stamp(ds)
    ensures Preserves(fs, RunScript(fs, list, runDirectory, archive, remote, stamp, skipMissing).fs)
  {
    var tasks := RangeSkewTasks(list);
    RunStitchedPreserves(fs, tasks.rows, StitchedCombos(tasks.rows), skipMissing);
    RunCmipPreserves(fs, tasks.rows, IntermediateDir(runDirectory), archive, remote, stamp, CmipCombos(tasks.rows));
  }

  // ---------------------------------------------------------------------------
  // The same, as the script runs it: step by step on the file system

  /** The gate applied in place. */
  method WriteIfAbsent(store: Store, dir: string, prefix: string, stamp: string, ds: Dataset)
    modifies store
    ensures store.State() == Gate(old(store.State()), dir, prefix, stamp, ds)
  {
    var existing := Glob(store.State(), dir, prefix, NcSuffix);
    if existing == [] {
      store.Write(PathJoin(dir, prefix + stamp + NcSuffix), ds);
    }
  }

  method WriteIfNameAbsent(store: Store, dir: string, name: string, ds: Dataset)
    modifies store
    ensures store.State() == ExactGate(old(store.State()), dir, name, ds)
  {
    var existing := GlobExact(store.State(), PathJoin(dir, name));
    if existing == [] {
      store.Write(PathJoin(dir, name), ds);
    }
  }

  /** `create_tasrange_tasskew_stitched(run_details)` */
  method CreateStitched(store: Store, rows: seq<Task>, skipMissing: bool) returns (err: Option<string>)
    modifies store
    ensures Outcome(store.State(), err) == RunStitched(old(store.State()), rows, StitchedCombos(rows), skipMissing)
  {
    var combos := StitchedCombos(rows);
    var i := 0;
    while i < |combos|
      invariant 0 <= i <= |combos|
      invariant RunStitched(old(store.State()), rows, combos, skipMissing) == RunStitched(store.State(), rows, combos[i..], skipMissing)
    {
      RunStitchedAt(store.State(), rows, combos, i, skipMissing);
      var e := StitchedCombination(store, rows, combos[i].0, combos[i].1, skipMissing);
      if e.Some? {
        return e;
      }
      i := i + 1;
    }
    err := None;
  }

  /** The body of the STITCHES loop for one ESM and scenario. */
  method StitchedCombination(store: Store, rows: seq<Task>, esm: string, scenario: string, skipMissing: bool) returns (err: Option<string>)
    modifies store
    ensures Outcome(store.State(), err) == StitchedStep(old(store.State()), rows, esm, scenario, skipMissing)
  {
    var loc := StitchedLocation(rows, esm, scenario);
    if loc.Err? {
      return Some(loc.error);
    }
    if loc.value.None? {
      return Some("TypeError: expected str, not float");
    }
    var dir := loc.value.value;
    var fs := store.State();
    var tasFiles := GlobExact(fs, PathJoin(dir, StitchedName(esm, "tas", scenario)));
    var tasmaxFiles := GlobExact(fs, PathJoin(dir, StitchedName(esm, "tasmax", scenario)));
    var tasminFiles := GlobExact(fs, PathJoin(dir, StitchedName(esm, "tasmin", scenario)));
    if skipMissing && (tasFiles == [] || tasmaxFiles == [] || tasminFiles == []) {
      return None;
    }
    var tas := OpenMf(fs, tasFiles);
    var tasmin := OpenMf(fs, tasminFiles);
    var tasmax := OpenMf(fs, tasmaxFiles);
    if tas.Err? {
      return Some(tas.error);
    } else if tasmin.Err? {
      return Some(tasmin.error);
    } else if tasmax.Err? {
      return Some(tasmax.error);
    }
    var d := Derive(tas.value, tasmin.value, tasmax.value);
    if d.Err? {
      return Some(d.error);
    }
    WriteIfNameAbsent(store, dir, StitchedName(esm, "tasrange", scenario), d.value.0);
    WriteIfNameAbsent(store, dir, StitchedName(esm, "tasskew", scenario), d.value.1);
    err := None;
  }

  /** `create_tasrange_tasskew_pangeo(output_path, esm, scenario, ensemble)` */
  method CreatePangeo(store: Store, outputPath: string, archive: seq<ArchiveRow>, remote: map<string, Dataset>,
                      stamp: Dataset -> string, esm: string, scenario: string, ensemble: string) returns (err: Option<string>)
    modifies store
    ensures Outcome(store.State(), err) == PangeoStep(old(store.State()), outputPath, archive, remote, stamp, esm, scenario, ensemble)
  {
    var table := NativeGridTable(archive);
    var tasUrl := StoreOf(table, "tas", esm, scenario, ensemble);
    var tasmaxUrl := StoreOf(table, "tasmax", esm, scenario, ensemble);
    var tasminUrl := StoreOf(table, "tasmin", esm, scenario, ensemble);
    if tasUrl.Err? {
      return Some(tasUrl.error);
    } else if tasmaxUrl.Err? {
      return Some(tasmaxUrl.error);
    } else if tasminUrl.Err? {
      return Some(tasminUrl.error);
    }
    var tas := Fetch(remote, tasUrl.value);
    var tasmax := Fetch(remote, tasmaxUrl.value);
    var tasmin := Fetch(remote, tasminUrl.value);
    if tas.Err? {
      return Some(tas.error);
    } else if tasmax.Err? {
      return Some(tasmax.error);
    } else if tasmin.Err? {
      return Some(tasmin.error);
    }
    var d := Derive(tas.value, tasmin.value, tasmax.value);
    if d.Err? {
      return Some(d.error);
    }
    var dir := PangeoOutputDir(outputPath);
    store.EnsureDirectory(dir);
    var s := stamp(tas.value);
    WriteIfAbsent(store, dir, DailyPrefix("tasrange", esm, scenario, ensemble), s, d.value.0);
    WriteIfAbsent(store, dir, DailyPrefix("tasskew", esm, scenario, ensemble), s, d.value.1);
    err := None;
  }

  /** The body of the CMIP6 loop for one ESM, scenario and ensemble member. */
  method CmipCombination(store: Store, rows: seq<Task>, outputPath: string, archive: seq<ArchiveRow>, remote: map<string, Dataset>,
                         stamp: Dataset -> string, esm: string, scenario: string, ensemble: string) returns (err: Option<string>)
    modifies store
    ensures Outcome(store.State(), err) == CmipStep(old(store.State()), rows, outputPath, archive, remote, stamp, esm, scenario, ensemble)
  {
    var loc := CmipLocation(rows, esm, scenario, ensemble);
    if loc.Err? {
      return Some(loc.error);
    }
    if loc.value.None? {
      err := CreatePangeo(store, outputPath, archive, remote, stamp, esm, scenario, ensemble);
      return;
    }
    var dir := loc.value.value;
    var fs := store.State();
    var tasFiles := Glob(fs, dir, DailyPrefix("tas", esm, scenario, ensemble), NcSuffix);
    var tasmaxFiles := Glob(fs, dir, DailyPrefix("tasmax", esm, scenario, ensemble), NcSuffix);
    var tasminFiles := Glob(fs, dir, DailyPrefix("tasmin", esm, scenario, ensemble), NcSuffix);
    if tasFiles == [] || tasmaxFiles == [] || tasminFiles == [] {
      return None;
    }
    var tas := OpenMf(fs, tasFiles);
    var tasmin := OpenMf(fs, tasminFiles);
    var tasmax := OpenMf(fs, tasmaxFiles);
    var d := Derive(tas.value, tasmin.value, tasmax.value);
    if d.Err? {
      return Some(d.error);
    }
    var s := stamp(tas.value);
    WriteIfAbsent(store, dir, DailyPrefix("tasrange", esm, scenario, ensemble), s, d.value.0);
    WriteIfAbsent(store, dir, DailyPrefix("tasskew", esm, scenario, ensemble), s, d.value.1);
    err := None;
  }

  /** `create_tasrange_tasskew_CMIP(run_details, output_path)` */
  method CreateCmip(store: Store, rows: seq<Task>, outputPath: string, archive: seq<ArchiveRow>, remote: map<string, Dataset>,
                    stamp: Dataset -> string) returns (err: Option<string>)
    modifies store
    ensures Outcome(store.State(), err) == RunCmip(old(store.State()), rows, outputPath, archive, remote, stamp, CmipCombos(rows))
  {
    err := CmipLoop(store, rows, outputPath, archive, remote, stamp, CmipCombos(rows));
  }

  /** One turn of the loop: the rest of the run after combination `i`. */
  lemma RunCmipStep(fs: Fs, rows: seq<Task>, outputPath: string, archive: seq<ArchiveRow>, remote: map<string, Dataset>,
                    stamp: Dataset -> string, combos: seq<(string, (string, string))>, i: nat, after: Fs, e: Option<string>)
    requires i < |combos|
    requires Outcome(after, e) == CmipStep(fs, rows, outputPath, archive, remote, stamp, combos[i].0, combos[i].1.0, combos[i].1.1)
    ensures RunCmip(fs, rows, outputPath, archive, remote, stamp, combos[i..]) ==
            if e.Some? then Outcome(after, e) else RunCmip(after, rows, outputPath, archive, remote, stamp, combos[i + 1..])
  {
    assert combos[i..][0] == combos[i] && combos[i..][1..] == combos[i + 1..];
  }

  /** The nested loops, over the combinations in loop order. */
  method CmipLoop(store: Store, rows: seq<Task>, outputPath: string, archive: seq<ArchiveRow>, remote: map<string, Dataset>,
                  stamp: Dataset -> string, combos: seq<(string, (string, string))>) returns (err: Option<string>)
    modifies store
    ensures Outcome(store.State(), err) == RunCmip(old(store.State()), rows, outputPath, archive, remote, stamp, combos)
  {
    var i := 0;
    while i < |combos|
      invariant 0 <= i <= |combos|
      invariant RunCmip(old(store.State()), rows, outputPath, archive, remote, stamp, combos)
                == RunCmip(store.State(), rows, outputPath, archive, remote, stamp, combos[i..])
    {
      ghost var before := store.State();
      var e := CmipCombination(store, rows, outputPath, archive, remote, stamp, combos[i].0, combos[i].1.0, combos[i].1.1);
      RunCmipStep(before, rows, outputPath, archive, remote, stamp, combos, i, store.State(), e);
      if e.Some? {
        return e;
      }
      i := i + 1;
    }
    err := None;
  }

  /** The script's entry point, from the parsed task list onwards. */
  method CreateRangeSkew(store: Store, list: TaskList, runDirectory: string, archive: seq<ArchiveRow>, remote: map<string, Dataset>,
                         stamp: Dataset -> string, skipMissing: bool) returns (err: Option<string>)
    modifies store
    ensures Outcome(store.State(), err) == RunScript(old(store.State()), list, runDirectory, archive, remote, stamp, skipMissing)
  {
    var tasks := RangeSkewTasks(list);
    var stitched := FirstIsStitched(tasks);
    if stitched.Err? {
      return Some(stitched.error);
    }
    if stitched.value {
      err := CreateStitched(store, tasks.rows, skipMissing);
    } else {
      err := CreateCmip(store, tasks.rows, IntermediateDir(runDirectory), archive, remote, stamp);
    }
  }
}
