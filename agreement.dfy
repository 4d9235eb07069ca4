/** How the pipeline's stages meet: each stage finds its inputs only under
    the names an earlier stage wrote them. These lemmas tie the naming of one
    file to the naming in the next. */
module Agreement {
  import opened Common
  import opened Files
  import opened Tasks
  import opened BasdStage
  import RangeSkew
  import Downloaded
  import Pangeo
  import Stitched
  import MinMax
  import Manifest

  /** The bias-adjustment and downscaling outputs named by `names` are the
      files the tasmin/tasmax builders of the same task open: for each
      stage and resolution, the builder's directory is the stage directory
      and its name for the task's variable is the stage's file name. */
  predicate FeedsMinMax(names: Names, task: Task, member: string)
    requires task.output.Some? && SplitPeriod(task.application).Some?
  {
    var start := SplitPeriod(task.application).value.0;
    var end := SplitPeriod(task.application).value.1;
    var baDay := MinMax.Builder(task.esm, member, task.scenario, start, end, task.ref, task.output, MinMax.Ba, MinMax.Daily).value;
    var baMon := MinMax.Builder(task.esm, member, task.scenario, start, end, task.ref, task.output, MinMax.Ba, MinMax.Monthly).value;
    var basdDay := MinMax.Builder(task.esm, member, task.scenario, start, end, task.ref, task.output, MinMax.Basd, MinMax.Daily).value;
    var basdMon := MinMax.Builder(task.esm, member, task.scenario, start, end, task.ref, task.output, MinMax.Basd, MinMax.Monthly).value;
    && baDay.dir == names.baPath && baMon.dir == names.baPath
    && basdDay.dir == names.basdPath && basdMon.dir == names.basdPath
    && forall i :: 0 <= i < 5 && MinMax.JobVariables[i] == task.variable ==>
         && MinMax.JobNames(baDay)[i] == names.dayBa
         && names.monBa == Some(MinMax.JobNames(baMon)[i])
         && MinMax.JobNames(basdDay)[i] == names.dayBasd
         && names.monBasd == Some(MinMax.JobNames(basdMon)[i])
  }

  /** The names of one task's outputs under `member`, as `set_names` builds
      them, feed the builders. */
  lemma {:induction false} LayoutFeedsMinMax(task: Task, member: string, names: Names)
    requires task.output.Some? && SplitPeriod(task.application).Some?
    requires var start := SplitPeriod(task.application).value.0;
             var end := SplitPeriod(task.application).value.1;
             var dir := RunDir(task.output.value, task);
             && names.baPath == PathJoin(dir, "ba") && names.basdPath == PathJoin(dir, "basd")
             && names.dayBa == OutputName(task, member, "daily", start, end) && names.dayBasd == names.dayBa
             && names.monBa == Some(OutputName(task, member, "monthly", start, end)) && names.monBasd == names.monBa
    ensures FeedsMinMax(names, task, member)
  {
    var start := SplitPeriod(task.application).value.0;
    var end := SplitPeriod(task.application).value.1;
    var out := task.output.value;
    assert JoinAll(out, [task.ref, task.esm, task.scenario, "ba"]) == PathJoin(RunDir(out, task), "ba") by {
      JoinAllSnoc(out, [task.ref, task.esm, task.scenario], "ba");
      assert [task.ref, task.esm, task.scenario] + ["ba"] == [task.ref, task.esm, task.scenario, "ba"];
    }
    assert JoinAll(out, [task.ref, task.esm, task.scenario, "basd"]) == PathJoin(RunDir(out, task), "basd") by {
      JoinAllSnoc(out, [task.ref, task.esm, task.scenario], "basd");
      assert [task.ref, task.esm, task.scenario] + ["basd"] == [task.ref, task.esm, task.scenario, "basd"];
    }
  }

  lemma {:induction false} JoinAllSnoc(base: string, parts: seq<string>, last: string)
    ensures JoinAll(base, parts + [last]) == PathJoin(JoinAll(base, parts), last)
    decreases |parts|
  {
    if parts == [] {
      assert parts + [last] == [last];
    } else {
      assert (parts + [last])[0] == parts[0] && (parts + [last])[1..] == parts[1..] + [last];
      JoinAllSnoc(PathJoin(base, parts[0]), parts[1..], last);
    }
  }

  /** The CMIP6 variant on downloaded inputs writes what the builders read,
      with the ensemble member in the names. */
  lemma DownloadedFeedsMinMax(task: Task)
    requires Downloaded.NamesFor(task).Ok?
    ensures SplitPeriod(task.application).Some?
    ensures FeedsMinMax(Downloaded.NamesFor(task).value, task, task.ensemble)
  {
    SplitPeriodOneDash(task.application);
    LayoutFeedsMinMax(task, task.ensemble, Downloaded.NamesFor(task).value);
  }

  /** The Pangeo variant writes what the builders read, with the ensemble
      member in the names. */
  lemma PangeoFeedsMinMax(task: Task)
    requires Pangeo.NamesFor(task).Ok?
    ensures SplitPeriod(task.application).Some?
    ensures FeedsMinMax(Pangeo.NamesFor(task).value.1, task, task.ensemble)
  {
    SplitPeriodOneDash(task.application);
    LayoutFeedsMinMax(task, task.ensemble, Pangeo.NamesFor(task).value.1);
  }

  /** The STITCHES variant writes what the builders read, with `STITCHES`
      in the place of the member — the member the tasmin/tasmax script
      uses when it runs the STITCHES loop. */
  lemma StitchedFeedsMinMax(task: Task, period: string)
    requires Stitched.NamesFor(task).Ok?
    ensures SplitPeriod(task.application).Some?
    ensures FeedsMinMax(Stitched.NamesFor(task).value, task, MinMax.Member(MinMax.Combo(task.esm, task.scenario, None, task.ref, period)))
  {
    SplitPeriodOneDash(task.application);
    LayoutFeedsMinMax(task, "STITCHES", Stitched.NamesFor(task).value);
  }

  /** A daily CMIP6 series the forward transform writes through its gate is
      one the downloaded-input loader's pattern finds: after the gate, the
      directory holds a file under the loader's prefix. */
  lemma GatedSeriesIsLoadable(fs: Fs, dir: string, variable: string, esm: string, scenario: string,
                              ensemble: string, stamp: string, ds: Dataset)
    requires variable == [] || variable[0] != '/'
    requires '/' !in stamp
    ensures var prefix := RangeSkew.DailyPrefix(variable, esm, scenario, ensemble);
            OpenPattern(RangeSkew.Gate(fs, dir, prefix, stamp, ds), Some(dir), prefix, RangeSkew.NcSuffix).Ok?
  {
    var prefix := RangeSkew.DailyPrefix(variable, esm, scenario, ensemble);
    assert prefix[0] != '/' by {
      if variable == [] {
        assert prefix[0] == '_';
      } else {
        assert prefix[0] == variable[0];
      }
    }
    if Glob(fs, dir, prefix, RangeSkew.NcSuffix) == [] {
      var fs' := WriteFile(fs, PathJoin(dir, prefix + stamp + RangeSkew.NcSuffix), ds);
      GlobSeesFile(fs', dir, prefix, stamp, RangeSkew.NcSuffix);
    }
  }

  /** The stitched series the forward transform writes through its exact
      gate is the one file the STITCHES loader opens for the task. */
  lemma StitchedSeriesIsLoadable(fs: Fs, task: Task, dir: string, ds: Dataset)
    ensures var fs' := RangeSkew.ExactGate(fs, dir, RangeSkew.StitchedName(task.esm, task.variable, task.scenario), ds);
            OpenPath(fs', PathJoin(dir, RangeSkew.StitchedName(task.esm, task.variable, task.scenario))).Ok?
  {
  }

  /** The explicit list the job-script generator writes has the file name
      the tasmin/tasmax script reads exactly when the run manager is named
      `run_manager.csv`. The directories differ and are not compared. */
  lemma {:induction false} ManifestNameIsTaskList(stem: string)
    requires stem != [] && '.' !in stem && '/' !in stem
    ensures Manifest.ManifestFileName(stem + ".csv") == MinMax.TaskListName <==> stem == "run_manager"
  {
    Manifest.SplitExtCsv(stem);
    var name := Manifest.ManifestFileName(stem + ".csv");
    assert name == stem + "_explicit_list.csv";
    if name == MinMax.TaskListName {
      assert |stem| == |"run_manager"|;
      assert stem == name[..|stem|];
      assert MinMax.TaskListName[..11] == "run_manager";
    }
  }

  /** The list the generator builds carries no `stitched` column; read back
      as such, the tasmin/tasmax script stops before its first attempt and
      leaves every file as it was. */
  lemma GeneratedListStopsMinMax(fs: Fs, rows: seq<Manifest.ManagerRow>, encoding: Utils.Table, attributes: Utils.Table)
    requires Utils.WellFormed(encoding) && Utils.WellFormed(attributes)
    requires Manifest.BuildManifest(rows).Ok?
    ensures forall i :: 0 <= i < |Manifest.BuildManifest(rows).value| ==> Manifest.BuildManifest(rows).value[i].stitched.None?
    ensures var r := MinMax.Script(fs, TaskList(Manifest.BuildManifest(rows).value, false), encoding, attributes);
            r.error.Some? && r.fs == fs
  {
    MinMax.NoStitchedColumnStops(fs, TaskList(Manifest.BuildManifest(rows).value, false), encoding, attributes);
  }
}
