/** `pangeo.py`: bias adjustment and downscaling of one task whose CMIP6
    daily data is fetched from the Pangeo archive into a temporary download
    directory first. The archive's table of contents and the stores that can
    be reached are parameters; the module-level paths and file names that
    `set_names` assigns are the fields of `Run`. */
module Pangeo {
  import opened Common
  import opened Files
  import opened Tasks
  import opened Utils
  import opened Catalogue
  import opened RangeSkew
  import opened BasdStage

  const NameError: string := "TypeError: expected str, bytes or os.PathLike object, not float"
  const SplitError: string := "ValueError: wrong number of values to unpack"
  /** `exit()` in the handler around `download_data`. */
  const DownloadExit: string := "SystemExit"

  const ApplicationFile: string := "sim_application_data.nc"
  const ReferenceFile: string := "sim_reference_data.nc"

  /** `set_names(run_object)`: the download directory beside the temporary
      and output directories under `{output}/{reference}/{esm}/{scenario}`;
      the observations are read from the reference location itself. */
  function NamesFor(task: Task): (r: Result<(string, Names)>)
    ensures r.Ok? <==> task.output.Some? && OneDash(task.application)
    ensures task.output.None? ==> r == Err(NameError)
    ensures r.Ok? ==> r.value.0 == PathJoin(RunDir(task.output.value, task), task.variable + "_" + task.ensemble + "_temp_download")
                      && r.value.1.tempDir == PathJoin(RunDir(task.output.value, task), task.variable + "_" + task.ensemble + "_temp_intermediate")
                      && r.value.1.baPath == PathJoin(RunDir(task.output.value, task), "ba")
                      && r.value.1.basdPath == PathJoin(RunDir(task.output.value, task), "basd")
    ensures r.Ok? ==> r.value.1.dayBasd == r.value.1.dayBa && r.value.1.monBasd == r.value.1.monBa
                      && r.value.1.monBa.Some? && r.value.1.monBa.value != r.value.1.dayBa
    ensures r.Ok? ==> r.value.1.refPath == task.refInput
  {
    SplitPeriodOneDash(task.application);
    if task.output.None? then Err(NameError)
    else match SplitPeriod(task.application)
      case None => Err(SplitError)
      case Some((start, end)) =>
        var dir := RunDir(task.output.value, task);
        var day := OutputName(task, task.ensemble, "daily", start, end);
        var mon := OutputName(task, task.ensemble, "monthly", start, end);
        DailyMonthlyNamesDiffer(task, task.ensemble, start, end);
        Ok((PathJoin(dir, task.variable + "_" + task.ensemble + "_temp_download"),
            Names(PathJoin(dir, task.variable + "_" + task.ensemble + "_temp_intermediate"),
                  PathJoin(dir, "ba"), day, Some(mon), PathJoin(dir, "basd"), day, Some(mon), task.refInput)))
  }

  /** The directories `create_directories()` makes, in order. */
  function Directories(download: string, names: Names): seq<string> {
    [download, names.tempDir, names.baPath, names.basdPath]
  }

  /** `get_pangeo_urls(run_object)`: the store of the task's model, variable
      and member at daily frequency, for the historical experiment and for
      the task's scenario, from the bias-adjustment catalogue. */
  function Urls(archive: seq<ArchiveRow>, task: Task): (r: Result<(string, string)>)
    ensures r.Ok? <==> StoreOf(ExperimentTable(archive), task.variable, task.esm, "historical", task.ensemble).Ok?
                       && StoreOf(ExperimentTable(archive), task.variable, task.esm, task.scenario, task.ensemble).Ok?
  {
    var table := ExperimentTable(archive);
    var reference := StoreOf(table, task.variable, task.esm, "historical", task.ensemble);
    var application := StoreOf(table, task.variable, task.esm, task.scenario, task.ensemble);
    if reference.Err? then Err(reference.error)
    else if application.Err? then Err(application.error)
    else Ok((reference.value, application.value))
  }

  /** A scenario outside the catalogue's experiment list has no store, so
      the run stops before any download. */
  lemma UnlistedScenarioFails(archive: seq<ArchiveRow>, task: Task)
    requires task.scenario !in PangeoExperiments
    ensures Urls(archive, task).Err?
  {
    UnlistedExperimentFails(archive, task.variable, task.esm, task.scenario, task.ensemble);
  }

  /** `download_data(reference_url, application_url)`: the application store
      is fetched and written first, then the reference store. A store that
      cannot be reached ends the download, leaving what was written. */
  function Download(fs: Fs, remote: map<string, Dataset>, download: string, refUrl: string, appUrl: string): (r: Outcome)
    ensures r.error.None? <==> appUrl in remote && refUrl in remote
    ensures r.fs.dirs == fs.dirs
    ensures appUrl !in remote ==> r.fs == fs
    ensures appUrl in remote ==> PathJoin(download, ApplicationFile) in r.fs.files
                                 && r.fs.files[PathJoin(download, ApplicationFile)] == remote[appUrl]
    ensures r.error.None? ==> r.fs.files == fs.files[PathJoin(download, ApplicationFile) := remote[appUrl]]
                                                    [PathJoin(download, ReferenceFile) := remote[refUrl]]
    ensures r.error.Some? ==> forall p :: p in r.fs.files && p != PathJoin(download, ApplicationFile) ==>
                                            p in fs.files && r.fs.files[p] == fs.files[p]
  {
    PathJoinInjective(download, ApplicationFile, ReferenceFile);
    match Fetch(remote, appUrl)
    case Err(e) => Outcome(fs, Some(e))
    case Ok(app) =>
      var fs1 := WriteFile(fs, PathJoin(download, ApplicationFile), app);
      match Fetch(remote, refUrl)
      case Err(e) => Outcome(fs1, Some(e))
      case Ok(reference) => Outcome(WriteFile(fs1, PathJoin(download, ReferenceFile), reference), None)
  }

  /** `load_ba_data(run_object)`: the two downloaded files and the
      observations from the reference location, each cut to its period and
      to the task's variable. */
  function LoadBaData(fs: Fs, task: Task, download: string, names: Names): (r: Result<Loaded>)
    ensures r.Ok? <==> PathJoin(download, ApplicationFile) in fs.files && PathJoin(download, ReferenceFile) in fs.files
                       && OpenPattern(fs, names.refPath, task.variable + "_", NcSuffix).Ok?
                       && Years(task.application).Ok? && Years(task.target).Ok?
    ensures r.Ok? ==> r.value.simApp == Prepare(fs.files[PathJoin(download, ApplicationFile)], Years(task.application).value, task.variable)
                      && r.value.simRef == Prepare(fs.files[PathJoin(download, ReferenceFile)], Years(task.target).value, task.variable)
    ensures r.Ok? ==> r.value.obsRef == Prepare(OpenPattern(fs, names.refPath, task.variable + "_", NcSuffix).value,
                                                Years(task.target).value, task.variable)
    ensures r.Ok? ==> forall v, c :: v in r.value.obsRef.vars && c in r.value.obsRef.vars[v] ==>
                        Years(task.target).value.0 <= c.year <= Years(task.target).value.1
    ensures r.Ok? ==> r.value.obsRef.vars.Keys <= {task.variable}
  {
    var app := OpenPath(fs, PathJoin(download, ApplicationFile));
    var hist := OpenPath(fs, PathJoin(download, ReferenceFile));
    var obs := OpenPattern(fs, names.refPath, task.variable + "_", NcSuffix);
    var appYears := Years(task.application);
    var targetYears := Years(task.target);
    if app.Err? then Err(app.error)
    else if hist.Err? then Err(hist.error)
    else if obs.Err? then Err(obs.error)
    else if appYears.Err? then Err(appYears.error)
    else if targetYears.Err? then Err(targetYears.error)
    else Ok(Loaded(Prepare(obs.value, targetYears.value, task.variable),
                   Prepare(hist.value, targetYears.value, task.variable),
                   Prepare(app.value, appYears.value, task.variable)))
  }

  /** What is loaded after a complete download is what the archive holds:
      the application store over the application period, the historical
      store over the target period. */
  lemma {:induction false} DownloadedDataLoaded(fs: Fs, remote: map<string, Dataset>, download: string,
                                                refUrl: string, appUrl: string, task: Task, names: Names)
    requires Download(fs, remote, download, refUrl, appUrl).error.None?
    requires OpenPattern(Download(fs, remote, download, refUrl, appUrl).fs, names.refPath, task.variable + "_", NcSuffix).Ok?
    requires Years(task.application).Ok? && Years(task.target).Ok?
    ensures var r := LoadBaData(Download(fs, remote, download, refUrl, appUrl).fs, task, download, names);
            && r.Ok?
            && r.value.simApp == Prepare(remote[appUrl], Years(task.application).value, task.variable)
            && r.value.simRef == Prepare(remote[refUrl], Years(task.target).value, task.variable)
  {
    PathJoinInjective(download, ApplicationFile, ReferenceFile);
    var fs1 := Download(fs, remote, download, refUrl, appUrl).fs;
    assert fs1.files[PathJoin(download, ApplicationFile)] == remote[appUrl];
    assert fs1.files[PathJoin(download, ReferenceFile)] == remote[refUrl];
  }

  // ---------------------------------------------------------------------------
  // The driver

  const EncodingArityError: string := "TypeError: get_encoding() takes 1 positional argument but 2 were given"

  /** `basd_pangeo(run_object)` as written: after the names, the directories,
      the store addresses and the parameters, `get_encoding` is called with
      two arguments and raises. */
  function BasdAsWritten(fs: Fs, task: Task, cfg: Config, archive: seq<ArchiveRow>): (r: Report)
    requires ConfigOk(cfg)
  {
    match NamesFor(task)
    case Err(e) => Report(fs, Some(e), [])
    case Ok((download, names)) =>
      var fs1 := EnsureDirs(fs, Directories(download, names));
      match Urls(archive, task)
      case Err(e) => Report(fs1, Some(e), [])
      case Ok(_) =>
        match GetParameters(cfg.parameters, task.variable)
        case Err(e) => Report(fs1, Some(e), [])
        case Ok(_) => Report(fs1, Some(EncodingArityError), [])
  }

  /** As written, no task ever reaches the download: the driver always
      raises, writes no file and calls nothing in the library. */
  lemma AsWrittenNeverAdjusts(fs: Fs, task: Task, cfg: Config, archive: seq<ArchiveRow>)
    requires ConfigOk(cfg)
    ensures BasdAsWritten(fs, task, cfg, archive).error.Some?
    ensures BasdAsWritten(fs, task, cfg, archive).requests == []
    ensures BasdAsWritten(fs, task, cfg, archive).fs.files == fs.files
    ensures NamesFor(task).Ok? && Urls(archive, task).Ok? && GetParameters(cfg.parameters, task.variable).Ok? ==>
              BasdAsWritten(fs, task, cfg, archive).error == Some(EncodingArityError)
  {
  }

  /** `basd_pangeo(run_object)` as evidently meant: the settings read as
      `stitched.py` reads them, and the daily clean-up removing the
      bias-adjusted and then the downscaled daily file. */
  function Basd(fs: Fs, task: Task, cfg: Config, archive: seq<ArchiveRow>, remote: map<string, Dataset>, lib: Library): Report
    requires ConfigOk(cfg)
  {
    match NamesFor(task)
    case Err(e) => Report(fs, Some(e), [])
    case Ok((download, names)) => BasdFrom(EnsureDirs(fs, Directories(download, names)), task, download, names, cfg, archive, remote, lib)
  }

  /** `basd_pangeo` from step 3 on, once the names are set and the
      directories made. */
  function BasdFrom(fs: Fs, task: Task, download: string, names: Names, cfg: Config,
                    archive: seq<ArchiveRow>, remote: map<string, Dataset>, lib: Library): Report
    requires ConfigOk(cfg)
  {
    match Urls(archive, task)
    case Err(e) => Report(fs, Some(e), [])
    case Ok((refUrl, appUrl)) =>
      match ReadSettings(cfg, task.variable)
      case Err(e) => Report(fs, Some(e), [])
      case Ok(st) => Fetched(fs, task, download, names, st, remote, refUrl, appUrl, lib)
  }

  /** Steps 8 to 10: download, load, adjust and downscale. */
  function Fetched(fs: Fs, task: Task, download: string, names: Names, st: Settings,
                   remote: map<string, Dataset>, refUrl: string, appUrl: string, lib: Library): Report
  {
    var dl := Download(fs, remote, download, refUrl, appUrl);
    if dl.error.Some? then Report(dl.fs, Some(DownloadExit), [])
    else
      match LoadBaData(dl.fs, task, download, names)
      case Err(e) => Report(dl.fs, Some(e), [])
      case Ok(data) =>
        AdjustAndDownscale(dl.fs, task, MonthRule(task.monthly, names), st.params, st.attrs, st.enc, st.reset,
                           data, lib, [Tree(download), Tree(names.tempDir)], DailyRemoval(names))
  }

  /** A store that cannot be reached ends the run before any library call. */
  lemma UnreachableStoreExits(fs: Fs, task: Task, download: string, names: Names, st: Settings,
                              remote: map<string, Dataset>, refUrl: string, appUrl: string, lib: Library)
    requires appUrl !in remote || refUrl !in remote
    ensures var r := Fetched(fs, task, download, names, st, remote, refUrl, appUrl, lib);
            r.error == Some(DownloadExit) && r.requests == [] && r.fs.dirs == fs.dirs
  {
  }

  /** Once its names, store addresses, settings and observations are in
      place and both stores can be reached, the corrected driver reaches bias
      adjustment with the downloaded data: the bias-adjusted daily file is
      requested in the `ba` directory, with a monthly file exactly when
      monthly output is wanted, and the adjustment starts from the
      application store over the application period. */
  lemma {:induction false} BasdAdjusts(fs: Fs, task: Task, cfg: Config, archive: seq<ArchiveRow>,
                                       remote: map<string, Dataset>, lib: Library)
    requires ConfigOk(cfg)
    requires NamesFor(task).Ok? && Urls(archive, task).Ok? && ReadSettings(cfg, task.variable).Ok?
    requires Urls(archive, task).value.0 in remote && Urls(archive, task).value.1 in remote
    requires Years(task.application).Ok? && Years(task.target).Ok?
    requires OpenPattern(Download(EnsureDirs(fs, Directories(NamesFor(task).value.0, NamesFor(task).value.1)), remote,
                                  NamesFor(task).value.0, Urls(archive, task).value.0, Urls(archive, task).value.1).fs,
                         task.refInput, task.variable + "_", NcSuffix).Ok?
    ensures var r := Basd(fs, task, cfg, archive, remote, lib);
            && 1 <= |r.requests| && r.requests[0].dir == NamesFor(task).value.1.baPath
            && r.requests[0].dayFile == NamesFor(task).value.1.dayBa
            && (r.requests[0].monthFile.Some? <==> task.monthly)
  {
    var (download, names) := NamesFor(task).value;
    var (refUrl, appUrl) := Urls(archive, task).value;
    var fs1 := EnsureDirs(fs, Directories(download, names));
    var st := ReadSettings(cfg, task.variable).value;
    assert Basd(fs, task, cfg, archive, remote, lib) == BasdFrom(fs1, task, download, names, cfg, archive, remote, lib);
    assert BasdFrom(fs1, task, download, names, cfg, archive, remote, lib)
        == Fetched(fs1, task, download, names, st, remote, refUrl, appUrl, lib);
    var dl := Download(fs1, remote, download, refUrl, appUrl);
    DownloadedDataLoaded(fs1, remote, download, refUrl, appUrl, task, names);
    var data := LoadBaData(dl.fs, task, download, names).value;
    ResetOnLoadedData(st.enc, st.reset, data.simApp);
    AdjustmentRequest(dl.fs, task, MonthRule(task.monthly, names), st.params, st.attrs, st.enc, st.reset,
                      data, lib, [Tree(download), Tree(names.tempDir)], DailyRemoval(names));
  }

  // ---------------------------------------------------------------------------
  // The module's state, changed in place

  class Run {
    var tempDownloadDir: string
    var tempIntermediateDir: string
    var outputBaPath: string
    var outputDayBaFileName: string
    var outputMonBaFileName: Option<string>
    var outputBasdPath: string
    var outputDayBasdFileName: string
    var outputMonBasdFileName: Option<string>
    var inputRefDataPath: Option<string>

    function Globals(): Names
      reads this
    {
      Names(tempIntermediateDir, outputBaPath, outputDayBaFileName, outputMonBaFileName,
            outputBasdPath, outputDayBasdFileName, outputMonBasdFileName, inputRefDataPath)
    }

    /** The module as imported: nothing named yet. */
    constructor ()
      ensures tempDownloadDir == "" && Globals() == Names("", "", "", None, "", "", None, None)
    {
      tempDownloadDir, tempIntermediateDir, outputBaPath := "", "", "";
      outputDayBaFileName, outputMonBaFileName := "", None;
      outputBasdPath, outputDayBasdFileName, outputMonBasdFileName := "", "", None;
      inputRefDataPath := None;
    }

    /** `set_names(run_object)`. When the period does not split, the
        download, temporary and bias-adjusted paths are already assigned. */
    method SetNames(task: Task) returns (err: Option<string>)
      modifies this
      ensures err.None? <==> NamesFor(task).Ok?
      ensures err.None? ==> tempDownloadDir == NamesFor(task).value.0 && Globals() == NamesFor(task).value.1
      ensures err.Some? ==> err.value == NamesFor(task).error
      ensures task.output.None? ==> tempDownloadDir == old(tempDownloadDir) && Globals() == old(Globals())
      ensures task.output.Some? && err.Some? ==>
                tempDownloadDir == PathJoin(RunDir(task.output.value, task), task.variable + "_" + task.ensemble + "_temp_download")
                && Globals() == old(Globals()).(tempDir := PathJoin(RunDir(task.output.value, task), task.variable + "_" + task.ensemble + "_temp_intermediate"),
                                                baPath := PathJoin(RunDir(task.output.value, task), "ba"))
    {
      SplitPeriodOneDash(task.application);
      if task.output.None? {
        return Some(NameError);
      }
      var dir := RunDir(task.output.value, task);
      tempDownloadDir := PathJoin(dir, task.variable + "_" + task.ensemble + "_temp_download");
      tempIntermediateDir := PathJoin(dir, task.variable + "_" + task.ensemble + "_temp_intermediate");
      outputBaPath := PathJoin(dir, "ba");
      var period := SplitPeriod(task.application);
      if period.None? {
        return Some(SplitError);
      }
      var start, end := period.value.0, period.value.1;
      outputDayBaFileName := OutputName(task, task.ensemble, "daily", start, end);
      outputMonBaFileName := Some(OutputName(task, task.ensemble, "monthly", start, end));
      outputBasdPath := PathJoin(dir, "basd");
      outputDayBasdFileName := OutputName(task, task.ensemble, "daily", start, end);
      outputMonBasdFileName := Some(OutputName(task, task.ensemble, "monthly", start, end));
      inputRefDataPath := task.refInput;
      err := None;
    }

    /** `create_directories()` */
    method CreateDirectories(store: Store)
      modifies store
      ensures store.State() == EnsureDirs(old(store.State()), Directories(tempDownloadDir, Globals()))
    {
      ghost var fs := store.State();
      store.EnsureDirectory(tempDownloadDir);
      EnsureDirsSnoc(fs, [], tempDownloadDir);
      assert store.State() == EnsureDirs(fs, [tempDownloadDir]);
      store.EnsureDirectory(tempIntermediateDir);
      EnsureDirsSnoc(fs, [tempDownloadDir], tempIntermediateDir);
      assert store.State() == EnsureDirs(fs, [tempDownloadDir, tempIntermediateDir]);
      store.EnsureDirectory(outputBaPath);
      EnsureDirsSnoc(fs, [tempDownloadDir, tempIntermediateDir], outputBaPath);
      assert store.State() == EnsureDirs(fs, [tempDownloadDir, tempIntermediateDir, outputBaPath]);
      store.EnsureDirectory(outputBasdPath);
      EnsureDirsSnoc(fs, [tempDownloadDir, tempIntermediateDir, outputBaPath], outputBasdPath);
      assert [tempDownloadDir, tempIntermediateDir, outputBaPath] + [outputBasdPath] == Directories(tempDownloadDir, Globals());
    }

    /** `download_data(reference_url, application_url)` into the download
        directory. */
    method DownloadData(store: Store, remote: map<string, Dataset>, refUrl: string, appUrl: string) returns (err: Option<string>)
      modifies store
      ensures err == Download(old(store.State()), remote, tempDownloadDir, refUrl, appUrl).error
      ensures store.State() == Download(old(store.State()), remote, tempDownloadDir, refUrl, appUrl).fs
    {
      var app := Fetch(remote, appUrl);
      if app.Err? {
        return Some(app.error);
      }
      store.Write(PathJoin(tempDownloadDir, ApplicationFile), app.value);
      var reference := Fetch(remote, refUrl);
      if reference.Err? {
        return Some(reference.error);
      }
      store.Write(PathJoin(tempDownloadDir, ReferenceFile), reference.value);
      err := None;
    }

    /** `basd_pangeo(run_object)` as evidently meant, on the file system in
        place. */
    method BasdPangeo(store: Store, task: Task, cfg: Config, archive: seq<ArchiveRow>,
                      remote: map<string, Dataset>, lib: Library) returns (r: Report)
      requires ConfigOk(cfg)
      modifies this, store
      ensures r == Basd(old(store.State()), task, cfg, archive, remote, lib) && store.State() == r.fs
      ensures NamesFor(task).Ok? ==> Globals() == NamesFor(task).value.1 || Globals() == MonthRule(task.monthly, NamesFor(task).value.1)
    {
      var err := SetNames(task);
      if err.Some? {
        return Report(store.State(), err, []);
      }
      CreateDirectories(store);
      r := Proceed(store, task, tempDownloadDir, Globals(), cfg, archive, remote, lib);
    }

    /** Steps 3 to 6, once the fields hold the names. */
    method Proceed(store: Store, task: Task, download: string, names: Names, cfg: Config,
                   archive: seq<ArchiveRow>, remote: map<string, Dataset>, lib: Library) returns (r: Report)
      requires ConfigOk(cfg) && tempDownloadDir == download && Globals() == names
      modifies this, store
      ensures r == BasdFrom(old(store.State()), task, download, names, cfg, archive, remote, lib) && store.State() == r.fs
      ensures Globals() == names || Globals() == MonthRule(task.monthly, names)
    {
      var urls := Urls(archive, task);
      if urls.Err? {
        return Report(store.State(), Some(urls.error), []);
      }
      var st := ReadSettings(cfg, task.variable);
      if st.Err? {
        return Report(store.State(), Some(st.error), []);
      }
      r := Get(store, task, download, names, st.value, remote, urls.value.0, urls.value.1, lib);
    }

    /** Step 8: download, then load. */
    method Get(store: Store, task: Task, download: string, names: Names, st: Settings,
               remote: map<string, Dataset>, refUrl: string, appUrl: string, lib: Library) returns (r: Report)
      requires tempDownloadDir == download && Globals() == names
      modifies this, store
      ensures r == Fetched(old(store.State()), task, download, names, st, remote, refUrl, appUrl, lib) && store.State() == r.fs
      ensures Globals() == names || Globals() == MonthRule(task.monthly, names)
    {
      var err := DownloadData(store, remote, refUrl, appUrl);
      if err.Some? {
        return Report(store.State(), Some(DownloadExit), []);
      }
      var data := LoadBaData(store.State(), task, download, names);
      if data.Err? {
        return Report(store.State(), Some(data.error), []);
      }
      r := Finish(store, task, download, names, st, data.value, lib);
    }

    /** Steps 9 and 10, from the loaded data on. */
    method Finish(store: Store, task: Task, download: string, names: Names, st: Settings, data: Loaded, lib: Library) returns (r: Report)
      requires tempDownloadDir == download && Globals() == names
      modifies this, store
      ensures r == AdjustAndDownscale(old(store.State()), task, MonthRule(task.monthly, names), st.params, st.attrs, st.enc, st.reset,
                                      data, lib, [Tree(download), Tree(names.tempDir)], DailyRemoval(names))
      ensures store.State() == r.fs
      ensures Globals() == MonthRule(task.monthly, names)
    {
      DropMonthlyNames(task.monthly);
      r := AdjustAndDownscaleOn(store, task, Globals(), st.params, st.attrs, st.enc, st.reset,
                                data, lib, [Tree(download), Tree(names.tempDir)], DailyRemoval(names));
    }

    /** `if ~run_object.monthly:` clear both monthly file names. */
    method DropMonthlyNames(monthly: bool)
      modifies this
      ensures Globals() == MonthRule(monthly, old(Globals())) && tempDownloadDir == old(tempDownloadDir)
    {
      if Inverted(monthly) {
        outputMonBaFileName := None;
        outputMonBasdFileName := None;
      }
    }
  }
}
