/** `stitched.py`: bias adjustment and downscaling of one task whose
    simulation is a STITCHES-generated series stored on disk as a single file
    under its ESM input location. The module-level paths and file names
    that `set_names` assigns are the fields of `Run`. */
module Stitched {
  import opened Common
  import opened Files
  import opened Tasks
  import opened Utils
  import opened RangeSkew
  import opened BasdStage

  const NameError: string := "TypeError: expected str, bytes or os.PathLike object, not float"
  const SplitError: string := "ValueError: wrong number of values to unpack"

  /** `set_names(run_object)`: every output lies under
      `{output}/{reference}/{esm}/{scenario}`, the member part of the file
      names is `STITCHES`, and the observations are read from the variable's
      sub-directory of the reference location. A missing output or reference
      location, or an application period without exactly one dash, raises. */
  function NamesFor(task: Task): (r: Result<Names>)
    ensures r.Ok? <==> task.output.Some? && OneDash(task.application) && task.refInput.Some?
    ensures task.output.None? ==> r == Err(NameError)
    ensures r.Ok? ==> r.value.tempDir == PathJoin(RunDir(task.output.value, task), task.variable + "_STITCHES_temp_intermediate")
                      && r.value.baPath == PathJoin(RunDir(task.output.value, task), "ba")
                      && r.value.basdPath == PathJoin(RunDir(task.output.value, task), "basd")
    ensures r.Ok? ==> r.value.dayBasd == r.value.dayBa && r.value.monBasd == r.value.monBa
                      && r.value.monBa.Some? && r.value.monBa.value != r.value.dayBa
    ensures r.Ok? ==> r.value.refPath == Some(PathJoin(task.refInput.value, task.variable))
  {
    SplitPeriodOneDash(task.application);
    if task.output.None? then Err(NameError)
    else match SplitPeriod(task.application)
      case None => Err(SplitError)
      case Some((start, end)) =>
        if task.refInput.None? then Err(NameError)
        else
          DailyMonthlyNamesDiffer(task, "STITCHES", start, end);
          Ok(Layout(task, task.output.value, start, end, Some(PathJoin(task.refInput.value, task.variable))))
  }

  /** The names `set_names` assigns, once the period is split. */
  function Layout(task: Task, output: string, start: string, end: string, refPath: Option<string>): Names {
    var dir := RunDir(output, task);
    var day := OutputName(task, "STITCHES", "daily", start, end);
    var mon := OutputName(task, "STITCHES", "monthly", start, end);
    Names(PathJoin(dir, task.variable + "_STITCHES_temp_intermediate"),
          PathJoin(dir, "ba"), day, Some(mon), PathJoin(dir, "basd"), day, Some(mon), refPath)
  }

  /** The directories `create_directories()` makes, in order. */
  function Directories(names: Names): seq<string> {
    [names.tempDir, names.baPath, names.basdPath]
  }

  /** `load_ba_data(run_object)`: the stitched series of the task's model,
      variable and scenario, cut once to the application period and once to
      the target period, and the observations cut to the target period; each
      reduced to the task's variable. */
  function LoadBaData(fs: Fs, task: Task, names: Names, simPath: Option<string>): (r: Result<Loaded>)
    ensures r.Ok? <==> simPath.Some? && PathJoin(simPath.value, StitchedName(task.esm, task.variable, task.scenario)) in fs.files
                       && OpenPattern(fs, names.refPath, task.variable + "_", NcSuffix).Ok?
                       && Years(task.application).Ok? && Years(task.target).Ok?
    ensures r.Ok? ==> var series := fs.files[PathJoin(simPath.value, StitchedName(task.esm, task.variable, task.scenario))];
                      r.value.simApp == Prepare(series, Years(task.application).value, task.variable)
                      && r.value.simRef == Prepare(series, Years(task.target).value, task.variable)
    ensures r.Ok? ==> r.value.obsRef == Prepare(OpenPattern(fs, names.refPath, task.variable + "_", NcSuffix).value,
                                                Years(task.target).value, task.variable)
    ensures r.Ok? ==> forall v, c :: v in r.value.obsRef.vars && c in r.value.obsRef.vars[v] ==>
                        Years(task.target).value.0 <= c.year <= Years(task.target).value.1
    ensures r.Ok? ==> r.value.simApp.vars.Keys + r.value.simRef.vars.Keys + r.value.obsRef.vars.Keys <= {task.variable}
  {
    var sim := if simPath.None? then Err(NameError)
               else OpenPath(fs, PathJoin(simPath.value, StitchedName(task.esm, task.variable, task.scenario)));
    var obs := OpenPattern(fs, names.refPath, task.variable + "_", NcSuffix);
    var appYears := Years(task.application);
    var targetYears := Years(task.target);
    if sim.Err? then Err(sim.error)
    else if obs.Err? then Err(obs.error)
    else if appYears.Err? then Err(appYears.error)
    else if targetYears.Err? then Err(targetYears.error)
    else Ok(Loaded(Prepare(obs.value, targetYears.value, task.variable),
                   Prepare(sim.value, targetYears.value, task.variable),
                   Prepare(sim.value, appYears.value, task.variable)))
  }

  // ---------------------------------------------------------------------------
  // The driver

  /** `basd_stitches(run_object, run_name)`; the configuration tables are
      those of `input/{run_name}`. */
  function Basd(fs: Fs, task: Task, cfg: Config, lib: Library): Report
    requires ConfigOk(cfg)
  {
    match NamesFor(task)
    case Err(e) => Report(fs, Some(e), [])
    case Ok(names) => BasdFrom(EnsureDirs(fs, Directories(names)), task, names, cfg, lib)
  }

  /** `basd_stitches` from step 4 on, once the names are set and the
      directories made. */
  function BasdFrom(fs: Fs, task: Task, names: Names, cfg: Config, lib: Library): Report
    requires ConfigOk(cfg)
  {
    match ReadSettings(cfg, task.variable)
    case Err(e) => Report(fs, Some(e), [])
    case Ok(st) =>
      match LoadBaData(fs, task, names, task.esmInput)
      case Err(e) => Report(fs, Some(e), [])
      case Ok(data) =>
        AdjustAndDownscale(fs, task, MonthRule(task.monthly, names), st.params, st.attrs, st.enc, st.reset,
                           data, lib, [Tree(names.tempDir)], DailyRemoval(names))
  }

  /** Once its names, settings and data are in place, the driver reaches
      bias adjustment: the bias-adjusted daily file is requested in
      the `ba` directory, with a monthly file exactly when monthly output is
      wanted. */
  lemma {:induction false} BasdAdjusts(fs: Fs, task: Task, cfg: Config, lib: Library)
    requires ConfigOk(cfg)
    requires NamesFor(task).Ok? && ReadSettings(cfg, task.variable).Ok?
    requires LoadBaData(EnsureDirs(fs, Directories(NamesFor(task).value)), task, NamesFor(task).value, task.esmInput).Ok?
    ensures var r := Basd(fs, task, cfg, lib);
            && 1 <= |r.requests| && r.requests[0].dir == NamesFor(task).value.baPath
            && r.requests[0].dayFile == NamesFor(task).value.dayBa
            && (r.requests[0].monthFile.Some? <==> task.monthly)
  {
    var names := NamesFor(task).value;
    var fs1 := EnsureDirs(fs, Directories(names));
    assert Basd(fs, task, cfg, lib) == BasdFrom(fs1, task, names, cfg, lib);
    var st := ReadSettings(cfg, task.variable).value;
    var data := LoadBaData(fs1, task, names, task.esmInput).value;
    ResetOnLoadedData(st.enc, st.reset, data.simApp);
    AdjustmentRequest(fs1, task, MonthRule(task.monthly, names), st.params, st.attrs, st.enc, st.reset,
                      data, lib, [Tree(names.tempDir)], DailyRemoval(names));
  }

  // ---------------------------------------------------------------------------
  // The module's state, changed in place

  class Run {
    var tempIntermediateDir: string
    var outputBaPath: string
    var outputDayBaFileName: string
    var outputMonBaFileName: Option<string>
    var outputBasdPath: string
    var outputDayBasdFileName: string
    var outputMonBasdFileName: Option<string>
    var inputRefDataPath: Option<string>
    var inputSimDataPath: Option<string>

    function Globals(): Names
      reads this
    {
      Names(tempIntermediateDir, outputBaPath, outputDayBaFileName, outputMonBaFileName,
            outputBasdPath, outputDayBasdFileName, outputMonBasdFileName, inputRefDataPath)
    }

    /** The module as imported: nothing named yet. */
    constructor ()
      ensures Globals() == Names("", "", "", None, "", "", None, None) && inputSimDataPath == None
    {
      tempIntermediateDir, outputBaPath, outputDayBaFileName, outputMonBaFileName := "", "", "", None;
      outputBasdPath, outputDayBasdFileName, outputMonBasdFileName := "", "", None;
      inputRefDataPath, inputSimDataPath := None, None;
    }

    /** `set_names(run_object)`. When it raises, the names assigned before
        the failing statement stay assigned. */
    method SetNames(task: Task) returns (err: Option<string>)
      modifies this
      ensures err.None? <==> NamesFor(task).Ok?
      ensures err.None? ==> Globals() == NamesFor(task).value && inputSimDataPath == task.esmInput
      ensures err.Some? ==> err.value == NamesFor(task).error && inputSimDataPath == old(inputSimDataPath)
      ensures task.output.None? ==> Globals() == old(Globals())
      ensures task.output.Some? && !OneDash(task.application) ==>
                Globals() == old(Globals()).(tempDir := PathJoin(RunDir(task.output.value, task), task.variable + "_STITCHES_temp_intermediate"),
                                             baPath := PathJoin(RunDir(task.output.value, task), "ba"))
      ensures task.output.Some? && OneDash(task.application) && err.Some? ==>
                Globals() == Layout(task, task.output.value, SplitPeriod(task.application).value.0,
                                    SplitPeriod(task.application).value.1, old(inputRefDataPath))
    {
      SplitPeriodOneDash(task.application);
      if task.output.None? {
        return Some(NameError);
      }
      var dir := RunDir(task.output.value, task);
      tempIntermediateDir := PathJoin(dir, task.variable + "_STITCHES_temp_intermediate");
      outputBaPath := PathJoin(dir, "ba");
      var period := SplitPeriod(task.application);
      if period.None? {
        return Some(SplitError);
      }
      var start, end := period.value.0, period.value.1;
      outputDayBaFileName := OutputName(task, "STITCHES", "daily", start, end);
      outputMonBaFileName := Some(OutputName(task, "STITCHES", "monthly", start, end));
      outputBasdPath := PathJoin(dir, "basd");
      outputDayBasdFileName := OutputName(task, "STITCHES", "daily", start, end);
      outputMonBasdFileName := Some(OutputName(task, "STITCHES", "monthly", start, end));
      if task.refInput.None? {
        return Some(NameError);
      }
      inputRefDataPath := Some(PathJoin(task.refInput.value, task.variable));
      inputSimDataPath := task.esmInput;
      err := None;
    }

    /** `create_directories()` */
    method CreateDirectories(store: Store)
      modifies store
      ensures store.State() == EnsureDirs(old(store.State()), Directories(Globals()))
    {
      ghost var fs := store.State();
      store.EnsureDirectory(tempIntermediateDir);
      store.EnsureDirectory(outputBaPath);
      store.EnsureDirectory(outputBasdPath);
      EnsureDirsSnoc(fs, [], tempIntermediateDir);
      EnsureDirsSnoc(fs, [tempIntermediateDir], outputBaPath);
      EnsureDirsSnoc(fs, [tempIntermediateDir, outputBaPath], outputBasdPath);
    }

    /** `basd_stitches(run_object, run_name)` on the file system in place. */
    method BasdStitches(store: Store, task: Task, cfg: Config, lib: Library) returns (r: Report)
      requires ConfigOk(cfg)
      modifies this, store
      ensures r == Basd(old(store.State()), task, cfg, lib) && store.State() == r.fs
      ensures NamesFor(task).Ok? ==> Globals() == NamesFor(task).value || Globals() == MonthRule(task.monthly, NamesFor(task).value)
    {
      var err := SetNames(task);
      if err.Some? {
        return Report(store.State(), err, []);
      }
      CreateDirectories(store);
      r := Proceed(store, task, Globals(), cfg, lib);
    }

    /** Steps 4 to 10, once the fields hold `names`. */
    method Proceed(store: Store, task: Task, names: Names, cfg: Config, lib: Library) returns (r: Report)
      requires ConfigOk(cfg) && inputSimDataPath == task.esmInput && Globals() == names
      modifies this, store
      ensures r == BasdFrom(old(store.State()), task, names, cfg, lib) && store.State() == r.fs
      ensures Globals() == names || Globals() == MonthRule(task.monthly, names)
    {
      var st := ReadSettings(cfg, task.variable);
      if st.Err? {
        return Report(store.State(), Some(st.error), []);
      }
      var data := LoadBaData(store.State(), task, names, inputSimDataPath);
      if data.Err? {
        return Report(store.State(), Some(data.error), []);
      }
      r := Finish(store, task, names, st.value, data.value, lib);
    }

    /** Steps 9 and 10, from the loaded data on. */
    method Finish(store: Store, task: Task, names: Names, st: Settings, data: Loaded, lib: Library) returns (r: Report)
      requires Globals() == names
      modifies this, store
      ensures r == AdjustAndDownscale(old(store.State()), task, MonthRule(task.monthly, names), st.params, st.attrs, st.enc, st.reset,
                                      data, lib, [Tree(names.tempDir)], DailyRemoval(names))
      ensures store.State() == r.fs
      ensures Globals() == MonthRule(task.monthly, names)
    {
      DropMonthlyNames(task.monthly);
      r := AdjustAndDownscaleOn(store, task, Globals(), st.params, st.attrs, st.enc, st.reset,
                                data, lib, [Tree(names.tempDir)], DailyRemoval(names));
    }
  
    /** `if ~run_object.monthly:` clear both monthly file names. */
    method DropMonthlyNames(monthly: bool)
      modifies this
      ensures Globals() == MonthRule(monthly, old(Globals())) && inputSimDataPath == old(inputSimDataPath)
    {
      if Inverted(monthly) {
        outputMonBaFileName := None;
        outputMonBasdFileName := None;
      }
    }
  }
}
