/** `downloaded.py`: bias adjustment and downscaling of one task whose CMIP6
    daily files are stored on disk under its ESM input location. The
    module-level paths and file names that `set_names` assigns are the
    fields of `Run`. */
module Downloaded {
  import opened Common
  import opened Files
  import opened Tasks
  import opened Utils
  import opened RangeSkew
  import opened BasdStage

  const NameError: string := "TypeError: expected str, bytes or os.PathLike object, not float"
  const SplitError: string := "ValueError: wrong number of values to unpack"

  /** `set_names(run_object)`: every output lies under
      `{output}/{reference}/{esm}/{scenario}`; the bias-adjusted and the
      downscaled files share their names. A missing output location or an
      application period without exactly one dash raises. */
  function NamesFor(task: Task): (r: Result<Names>)
    ensures r.Ok? <==> task.output.Some? && OneDash(task.application)
    ensures task.output.None? ==> r == Err(NameError)
    ensures r.Ok? ==> r.value.tempDir == PathJoin(RunDir(task.output.value, task), task.variable + "_" + task.ensemble + "_temp_intermediate")
                      && r.value.baPath == PathJoin(RunDir(task.output.value, task), "ba")
                      && r.value.basdPath == PathJoin(RunDir(task.output.value, task), "basd")
    ensures r.Ok? ==> r.value.dayBasd == r.value.dayBa && r.value.monBasd == r.value.monBa
                      && r.value.monBa.Some? && r.value.monBa.value != r.value.dayBa
    ensures r.Ok? ==> r.value.refPath == task.refInput
  {
    SplitPeriodOneDash(task.application);
    if task.output.None? then Err(NameError)
    else match SplitPeriod(task.application)
      case None => Err(SplitError)
      case Some((start, end)) =>
        var dir := RunDir(task.output.value, task);
        var day := OutputName(task, task.ensemble, "daily", start, end);
        var mon := OutputName(task, task.ensemble, "monthly", start, end);
        DailyMonthlyNamesDiffer(task, task.ensemble, start, end);
        Ok(Names(PathJoin(dir, task.variable + "_" + task.ensemble + "_temp_intermediate"),
                 PathJoin(dir, "ba"), day, Some(mon), PathJoin(dir, "basd"), day, Some(mon), task.refInput))
  }

  /** The directories `create_directories()` makes, in order. */
  function Directories(names: Names): seq<string> {
    [names.tempDir, names.baPath, names.basdPath]
  }

  /** `load_ba_data(run_object)`: the application run and the historical run
      of the task's model and member from the ESM input location, the
      observations from the reference location; each cut to its period and
      to the task's variable. */
  function LoadBaData(fs: Fs, task: Task, names: Names, simPath: Option<string>): (r: Result<Loaded>)
    ensures r.Ok? <==> OpenPattern(fs, simPath, DailyPrefix(task.variable, task.esm, task.scenario, task.ensemble), NcSuffix).Ok?
                       && OpenPattern(fs, simPath, DailyPrefix(task.variable, task.esm, "historical", task.ensemble), NcSuffix).Ok?
                       && OpenPattern(fs, names.refPath, task.variable + "_", NcSuffix).Ok?
                       && Years(task.application).Ok? && Years(task.target).Ok?
    ensures r.Ok? ==> r.value.obsRef == Prepare(OpenPattern(fs, names.refPath, task.variable + "_", NcSuffix).value,
                                                Years(task.target).value, task.variable)
    ensures r.Ok? ==> r.value.simRef == Prepare(OpenPattern(fs, simPath, DailyPrefix(task.variable, task.esm, "historical", task.ensemble), NcSuffix).value,
                                                Years(task.target).value, task.variable)
    ensures r.Ok? ==> r.value.simApp == Prepare(OpenPattern(fs, simPath, DailyPrefix(task.variable, task.esm, task.scenario, task.ensemble), NcSuffix).value,
                                                Years(task.application).value, task.variable)
    ensures r.Ok? ==> forall v, c :: v in r.value.simApp.vars && c in r.value.simApp.vars[v] ==>
                        Years(task.application).value.0 <= c.year <= Years(task.application).value.1
    ensures r.Ok? ==> forall v, c :: v in r.value.simRef.vars && c in r.value.simRef.vars[v] ==>
                        Years(task.target).value.0 <= c.year <= Years(task.target).value.1
    ensures r.Ok? ==> forall v, c :: v in r.value.obsRef.vars && c in r.value.obsRef.vars[v] ==>
                        Years(task.target).value.0 <= c.year <= Years(task.target).value.1
    ensures r.Ok? ==> r.value.simApp.vars.Keys + r.value.simRef.vars.Keys + r.value.obsRef.vars.Keys <= {task.variable}
  {
    var app := OpenPattern(fs, simPath, DailyPrefix(task.variable, task.esm, task.scenario, task.ensemble), NcSuffix);
    var hist := OpenPattern(fs, simPath, DailyPrefix(task.variable, task.esm, "historical", task.ensemble), NcSuffix);
    var obs := OpenPattern(fs, names.refPath, task.variable + "_", NcSuffix);
    var appYears := Years(task.application);
    var targetYears := Years(task.target);
    if app.Err? then Err(app.error)
    else if hist.Err? then Err(hist.error)
    else if obs.Err? then Err(obs.error)
    else if appYears.Err? then Err(appYears.error)
    else if targetYears.Err? then Err(targetYears.error)
    else Ok(Loaded(Prepare(obs.value, targetYears.value, task.variable),
                   Prepare(hist.value, targetYears.value, task.variable),
                   Prepare(app.value, appYears.value, task.variable)))
  }

  // ---------------------------------------------------------------------------
  // The driver

  const EncodingArityError: string := "TypeError: get_encoding() takes 1 positional argument but 2 were given"

  /** `basd_downloaded(run_object)` as written: after the names, the
      directories and the parameters, `get_encoding` is called with two
      arguments and raises. */
  function BasdAsWritten(fs: Fs, task: Task, cfg: Config): (r: Report)
    requires ConfigOk(cfg)
  {
    match NamesFor(task)
    case Err(e) => Report(fs, Some(e), [])
    case Ok(names) =>
      var fs1 := EnsureDirs(fs, Directories(names));
      match GetParameters(cfg.parameters, task.variable)
      case Err(e) => Report(fs1, Some(e), [])
      case Ok(_) => Report(fs1, Some(EncodingArityError), [])
  }

  /** As written, no task ever reaches bias adjustment: the driver always
      raises, writes no file and calls nothing in the library. */
  lemma AsWrittenNeverAdjusts(fs: Fs, task: Task, cfg: Config)
    requires ConfigOk(cfg)
    ensures BasdAsWritten(fs, task, cfg).error.Some?
    ensures BasdAsWritten(fs, task, cfg).requests == []
    ensures BasdAsWritten(fs, task, cfg).fs.files == fs.files
    ensures NamesFor(task).Ok? && GetParameters(cfg.parameters, task.variable).Ok? ==>
              BasdAsWritten(fs, task, cfg).error == Some(EncodingArityError)
  {
  }

  /** `basd_downloaded(run_object)` as evidently meant: the settings read as
      `stitched.py` reads them, and the daily clean-up removing the
      bias-adjusted and then the downscaled daily file. */
  function Basd(fs: Fs, task: Task, cfg: Config, lib: Library): Report
    requires ConfigOk(cfg)
  {
    match NamesFor(task)
    case Err(e) => Report(fs, Some(e), [])
    case Ok(names) => BasdFrom(EnsureDirs(fs, Directories(names)), task, names, cfg, lib)
  }

  /** `basd_downloaded` from step 4 on, once the names are set and the
      directories made. */
  function BasdFrom(fs: Fs, task: Task, names: Names, cfg: Config, lib: Library): Report
    requires ConfigOk(cfg)
  {
    match ReadSettings(cfg, task.variable)
    case Err(e) => Report(fs, Some(e), [])
    case Ok(st) =>
      match LoadBaData(fs, task, names, task.esmInput)
      case Err(e) => Report(fs, Some(e), [])
      case Ok(data) =>
        AdjustAndDownscale(fs, task, MonthRule(task.monthly, names), st.params, st.attrs, st.enc, st.reset,
                           data, lib, [Tree(names.tempDir)], DailyRemoval(names))
  }

  /** Once its names, settings and data are in place, the corrected driver
      reaches bias adjustment: the bias-adjusted daily file is requested in
      the `ba` directory, with a monthly file exactly when monthly output is
      wanted. */
  lemma {:induction false} BasdAdjusts(fs: Fs, task: Task, cfg: Config, lib: Library)
    requires ConfigOk(cfg)
    requires NamesFor(task).Ok? && ReadSettings(cfg, task.variable).Ok?
    requires LoadBaData(EnsureDirs(fs, Directories(NamesFor(task).value)), task, NamesFor(task).value, task.esmInput).Ok?
    ensures var r := Basd(fs, task, cfg, lib);
            && 1 <= |r.requests| && r.requests[0].dir == NamesFor(task).value.baPath
            && r.requests[0].dayFile == NamesFor(task).value.dayBa
            && (r.requests[0].monthFile.Some? <==> task.monthly)
  {
    var names := NamesFor(task).value;
    var fs1 := EnsureDirs(fs, Directories(names));
    assert Basd(fs, task, cfg, lib) == BasdFrom(fs1, task, names, cfg, lib);
    var st := ReadSettings(cfg, task.variable).value;
    var data := LoadBaData(fs1, task, names, task.esmInput).value;
    ResetOnLoadedData(st.enc, st.reset, data.simApp);
    AdjustmentRequest(fs1, task, MonthRule(task.monthly, names), st.params, st.attrs, st.enc, st.reset,
                      data, lib, [Tree(names.tempDir)], DailyRemoval(names));
  }

  // ---------------------------------------------------------------------------
  // The module's state, changed in place

  class Run {
    var tempIntermediateDir: string
    var outputBaPath: string
    var outputDayBaFileName: string
    var outputMonBaFileName: Option<string>
    var outputBasdPath: string
    var outputDayBasdFileName: string
    var outputMonBasdFileName: Option<string>
    var inputRefDataPath: Option<string>
    var inputSimDataPath: Option<string>

    function Globals(): Names
      reads this
    {
      Names(tempIntermediateDir, outputBaPath, outputDayBaFileName, outputMonBaFileName,
            outputBasdPath, outputDayBasdFileName, outputMonBasdFileName, inputRefDataPath)
    }

    /** The module as imported: nothing named yet. */
    constructor ()
      ensures Globals() == Names("", "", "", None, "", "", None, None) && inputSimDataPath == None
    {
      tempIntermediateDir, outputBaPath, outputDayBaFileName, outputMonBaFileName := "", "", "", None;
      outputBasdPath, outputDayBasdFileName, outputMonBasdFileName := "", "", None;
      inputRefDataPath, inputSimDataPath := None, None;
    }

    /** `set_names(run_object)`. When the period does not split, the
        temporary and bias-adjusted paths are already assigned. */
    method SetNames(task: Task) returns (err: Option<string>)
      modifies this
      ensures err.None? <==> NamesFor(task).Ok?
      ensures err.None? ==> Globals() == NamesFor(task).value && inputSimDataPath == task.esmInput
      ensures err.Some? ==> err.value == NamesFor(task).error
      ensures task.output.None? ==> Globals() == old(Globals()) && inputSimDataPath == old(inputSimDataPath)
      ensures task.output.Some? && err.Some? ==>
                Globals() == old(Globals()).(tempDir := PathJoin(RunDir(task.output.value, task), task.variable + "_" + task.ensemble + "_temp_intermediate"),
                                             baPath := PathJoin(RunDir(task.output.value, task), "ba"))
                && inputSimDataPath == old(inputSimDataPath)
    {
      SplitPeriodOneDash(task.application);
      if task.output.None? {
        return Some(NameError);
      }
      var dir := RunDir(task.output.value, task);
      tempIntermediateDir := PathJoin(dir, task.variable + "_" + task.ensemble + "_temp_intermediate");
      outputBaPath := PathJoin(dir, "ba");
      var period := SplitPeriod(task.application);
      if period.None? {
        return Some(SplitError);
      }
      var start, end := period.value.0, period.value.1;
      outputDayBaFileName := OutputName(task, task.ensemble, "daily", start, end);
      outputMonBaFileName := Some(OutputName(task, task.ensemble, "monthly", start, end));
      outputBasdPath := PathJoin(dir, "basd");
      outputDayBasdFileName := OutputName(task, task.ensemble, "daily", start, end);
      outputMonBasdFileName := Some(OutputName(task, task.ensemble, "monthly", start, end));
      inputRefDataPath := task.refInput;
      inputSimDataPath := task.esmInput;
      err := None;
    }

    /** `create_directories()` */
    method CreateDirectories(store: Store)
      modifies store
      ensures store.State() == EnsureDirs(old(store.State()), Directories(Globals()))
    {
      ghost var fs := store.State();
      store.EnsureDirectory(tempIntermediateDir);
      store.EnsureDirectory(outputBaPath);
      store.EnsureDirectory(outputBasdPath);
      EnsureDirsSnoc(fs, [], tempIntermediateDir);
      EnsureDirsSnoc(fs, [tempIntermediateDir], outputBaPath);
      EnsureDirsSnoc(fs, [tempIntermediateDir, outputBaPath], outputBasdPath);
    }

    /** `basd_downloaded(run_object)` as evidently meant, on the file system
        in place. */
    method BasdDownloaded(store: Store, task: Task, cfg: Config, lib: Library) returns (r: Report)
      requires ConfigOk(cfg)
      modifies this, store
      ensures r == Basd(old(store.State()), task, cfg, lib) && store.State() == r.fs
      ensures NamesFor(task).Ok? ==> Globals() == NamesFor(task).value || Globals() == MonthRule(task.monthly, NamesFor(task).value)
    {
      var err := SetNames(task);
      if err.Some? {
        return Report(store.State(), err, []);
      }
      CreateDirectories(store);
      r := Proceed(store, task, Globals(), cfg, lib);
    }

    /** Steps 4 to 10, once the fields hold `names`. */
    method Proceed(store: Store, task: Task, names: Names, cfg: Config, lib: Library) returns (r: Report)
      requires ConfigOk(cfg) && inputSimDataPath == task.esmInput && Globals() == names
      modifies this, store
      ensures r == BasdFrom(old(store.State()), task, names, cfg, lib) && store.State() == r.fs
      ensures Globals() == names || Globals() == MonthRule(task.monthly, names)
    {
      var st := ReadSettings(cfg, task.variable);
      if st.Err? {
        return Report(store.State(), Some(st.error), []);
      }
      var data := LoadBaData(store.State(), task, names, inputSimDataPath);
      if data.Err? {
        return Report(store.State(), Some(data.error), []);
      }
      r := Finish(store, task, names, st.value, data.value, lib);
    }

    /** Steps 9 and 10, from the loaded data on. */
    method Finish(store: Store, task: Task, names: Names, st: Settings, data: Loaded, lib: Library) returns (r: Report)
      requires Globals() == names
      modifies this, store
      ensures r == AdjustAndDownscale(old(store.State()), task, MonthRule(task.monthly, names), st.params, st.attrs, st.enc, st.reset,
                                      data, lib, [Tree(names.tempDir)], DailyRemoval(names))
      ensures store.State() == r.fs
      ensures Globals() == MonthRule(task.monthly, names)
    {
      DropMonthlyNames(task.monthly);
      r := AdjustAndDownscaleOn(store, task, Globals(), st.params, st.attrs, st.enc, st.reset,
                                data, lib, [Tree(names.tempDir)], DailyRemoval(names));
    }
  
    /** `if ~run_object.monthly:` clear both monthly file names. */
    method DropMonthlyNames(monthly: bool)
      modifies this
      ensures Globals() == MonthRule(monthly, old(Globals())) && inputSimDataPath == old(inputSimDataPath)
    {
      if Inverted(monthly) {
        outputMonBaFileName := None;
        outputMonBasdFileName := None;
      }
    }
  }
}
