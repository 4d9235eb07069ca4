/** `create_tasmin_tasmax.py`: after bias adjustment and downscaling of tas,
    tasrange and tasskew, rebuild tasmin and tasmax in every output directory
    of every combination in the task list. Each of the four outputs of a
    combination (daily or monthly, bias-adjusted or downscaled) is attempted
    on its own: a failure is swallowed and the next attempt runs. The
    encoding dictionary is shared by all attempts, and resetting its chunk
    sizes changes it for the attempts that follow. */
module MinMax {
  import opened Common
  import opened Transform
  import opened Files
  import opened Tasks
  import opened Utils
  import opened BasdStage

  const LookupError: string := "IndexError: index 0 is out of bounds for axis 0 with size 0"
  const SplitError: string := "ValueError: wrong number of values to unpack"
  const NameError: string := "TypeError: expected str, bytes or os.PathLike object, not float"

  datatype Frequency = Daily | Monthly
  datatype Stage = Ba | Basd

  function FrequencyToken(f: Frequency): string {
    match f
    case Daily => "daily"
    case Monthly => "monthly"
  }

  function StageDir(s: Stage): string {
    match s
    case Ba => "ba"
    case Basd => "basd"
  }

  // ---------------------------------------------------------------------------
  // The eight name builders

  /** `{esm}_{member}_{ref}_{scenario}_{variable}_global_{frequency}_{start}_{end}.nc` */
  function FileName(esm: string, member: string, ref: string, scenario: string, variable: string,
                    frequency: string, start: string, end: string): string {
    esm + "_" + member + "_" + ref + "_" + scenario + "_" + variable + "_global_" + frequency + "_" + start + "_" + end + ".nc"
  }

  /** Two names of one template are equal exactly when their variables are. */
  lemma {:induction false} FileNameVariableInjective(esm: string, member: string, ref: string, scenario: string,
                                                     v1: string, v2: string, frequency: string, start: string, end: string)
    ensures FileName(esm, member, ref, scenario, v1, frequency, start, end) == FileName(esm, member, ref, scenario, v2, frequency, start, end)
            <==> v1 == v2
  {
    var head := esm + "_" + member + "_" + ref + "_" + scenario + "_";
    var tail := "_global_" + frequency + "_" + start + "_" + end + ".nc";
    assert FileName(esm, member, ref, scenario, v1, frequency, start, end) == head + v1 + tail;
    assert FileName(esm, member, ref, scenario, v2, frequency, start, end) == head + v2 + tail;
    if head + v1 + tail == head + v2 + tail {
      assert |v1| == |v2|;
      assert (head + v1 + tail)[|head|..|head| + |v1|] == v1;
      assert (head + v2 + tail)[|head|..|head| + |v2|] == v2;
    }
  }

  /** Two names of one template are equal exactly when their frequencies are. */
  lemma {:induction false} FileNameFrequencyInjective(esm: string, member: string, ref: string, scenario: string,
                                                      variable: string, f1: string, f2: string, start: string, end: string)
    ensures FileName(esm, member, ref, scenario, variable, f1, start, end) == FileName(esm, member, ref, scenario, variable, f2, start, end)
            <==> f1 == f2
  {
    var head := esm + "_" + member + "_" + ref + "_" + scenario + "_" + variable + "_global_";
    var tail := "_" + start + "_" + end + ".nc";
    assert FileName(esm, member, ref, scenario, variable, f1, start, end) == head + f1 + tail;
    assert FileName(esm, member, ref, scenario, variable, f2, start, end) == head + f2 + tail;
    if head + f1 + tail == head + f2 + tail {
      assert |f1| == |f2|;
      assert (head + f1 + tail)[|head|..|head| + |f1|] == f1;
      assert (head + f2 + tail)[|head|..|head| + |f2|] == f2;
    }
  }

  /** The directory and the five file names one builder hands to `create_general_CMIP`. */
  datatype Job = Job(dir: string, tas: string, tasrange: string, tasskew: string, tasmin: string, tasmax: string)

  const JobVariables: seq<string> := ["tas", "tasrange", "tasskew", "tasmin", "tasmax"]

  function JobNames(j: Job): seq<string> {
    [j.tas, j.tasrange, j.tasskew, j.tasmin, j.tasmax]
  }

  /** `create_{daily,monthly}_{ba,basd}_{STITCHES,CMIP}`: the member is
      'STITCHES' for the STITCHES builders and the ensemble member for the
      CMIP6 builders. A missing output location (NaN) makes the join raise. */
  function Builder(esm: string, member: string, scenario: string, start: string, end: string, ref: string,
                   output: Option<string>, stage: Stage, freq: Frequency): (r: Result<Job>)
    ensures r.Ok? <==> output.Some?
    ensures r.Ok? ==> r.value.dir == JoinAll(output.value, [ref, esm, scenario, StageDir(stage)])
    ensures r.Ok? ==> forall i :: 0 <= i < 5 ==>
                        JobNames(r.value)[i] == FileName(esm, member, ref, scenario, JobVariables[i], FrequencyToken(freq), start, end)
    ensures r.Ok? ==> NoDup(JobNames(r.value))
  {
    if output.None? then Err(NameError)
    else
      var name := (v: string) => FileName(esm, member, ref, scenario, v, FrequencyToken(freq), start, end);
      var j := Job(JoinAll(output.value, [ref, esm, scenario, StageDir(stage)]),
                   name("tas"), name("tasrange"), name("tasskew"), name("tasmin"), name("tasmax"));
      forall a, b | 0 <= a < b < 5 ensures JobNames(j)[a] != JobNames(j)[b] {
        FileNameVariableInjective(esm, member, ref, scenario, JobVariables[a], JobVariables[b], FrequencyToken(freq), start, end);
      }
      Ok(j)
  }

  /** The daily and the monthly builders of one stage differ only in the
      resolution token: every daily name differs from the monthly one. */
  lemma DailyMonthlyDiffer(esm: string, member: string, scenario: string, start: string, end: string, ref: string,
                           output: Option<string>, stage: Stage)
    requires output.Some?
    ensures var d := Builder(esm, member, scenario, start, end, ref, output, stage, Daily).value;
            var m := Builder(esm, member, scenario, start, end, ref, output, stage, Monthly).value;
            d.dir == m.dir && forall i :: 0 <= i < 5 ==> JobNames(d)[i] != JobNames(m)[i]
  {
    forall i | 0 <= i < 5 {
      FileNameFrequencyInjective(esm, member, ref, scenario, JobVariables[i], "daily", "monthly", start, end);
    }
  }

  // ---------------------------------------------------------------------------
  // create_general_CMIP

  /** The two paths `create_general_CMIP` writes. */
  function Written(j: Job): set<string> {
    {PathJoin(j.dir, j.tasmin), PathJoin(j.dir, j.tasmax)}
  }

  /** `create_general_CMIP(...)`: open tas, tasrange and tasskew from the
      job's directory, rebuild tasmin and tasmax, reset the chunk sizes
      against the tas data, and write both files, replacing any file of the
      same name. The new encoding is returned, since the caller's dictionary
      is changed in place. */
  function CreateGeneral(fs: Fs, j: Job, enc: Encoding, reset: bool): (r: Result<(Fs, Encoding)>)
    ensures r.Ok? <==> PathJoin(j.dir, j.tas) in fs.files && PathJoin(j.dir, j.tasrange) in fs.files
                       && PathJoin(j.dir, j.tasskew) in fs.files
                       && "tas" in fs.files[PathJoin(j.dir, j.tas)].vars
                       && "tasskew" in fs.files[PathJoin(j.dir, j.tasskew)].vars
                       && "tasrange" in fs.files[PathJoin(j.dir, j.tasrange)].vars
                       && ResetEncoding(enc, reset, Dims(fs.files[PathJoin(j.dir, j.tas)])).Ok?
    ensures r.Ok? ==> r.value.0.dirs == fs.dirs && r.value.0.files.Keys == fs.files.Keys + Written(j)
    ensures r.Ok? ==> forall p :: p in fs.files && p !in Written(j) ==> r.value.0.files[p] == fs.files[p]
    ensures r.Ok? ==> r.value.0.files[PathJoin(j.dir, j.tasmax)].vars.Keys == {"tasmax"}
    ensures r.Ok? ==> var tas := fs.files[PathJoin(j.dir, j.tas)].vars["tas"];
                      var skew := fs.files[PathJoin(j.dir, j.tasskew)].vars["tasskew"];
                      var range := fs.files[PathJoin(j.dir, j.tasrange)].vars["tasrange"];
                      r.value.0.files[PathJoin(j.dir, j.tasmax)] == ToDataset("tasmax", MaxGrid(MinGrid(tas, skew, range), range))
                      && (PathJoin(j.dir, j.tasmin) != PathJoin(j.dir, j.tasmax) ==>
                            r.value.0.files[PathJoin(j.dir, j.tasmin)] == ToDataset("tasmin", MinGrid(tas, skew, range)))
    ensures r.Ok? && !reset ==> r.value.1 == enc
    ensures r.Ok? && reset ==> (r.value.1.settings == enc.settings
              && r.value.1.chunksizes == Some(ResetChunkSizes(enc.chunksizes.value, Dims(fs.files[PathJoin(j.dir, j.tas)])).value))
  {
    var tas := OpenPath(fs, PathJoin(j.dir, j.tas));
    var range := OpenPath(fs, PathJoin(j.dir, j.tasrange));
    var skew := OpenPath(fs, PathJoin(j.dir, j.tasskew));
    if tas.Err? then Err(tas.error)
    else if range.Err? then Err(range.error)
    else if skew.Err? then Err(skew.error)
    else if "tas" !in tas.value.vars then Err("KeyError: 'tas'")
    else if "tasskew" !in skew.value.vars then Err("KeyError: 'tasskew'")
    else if "tasrange" !in range.value.vars then Err("KeyError: 'tasrange'")
    else
      var lo := MinGrid(tas.value.vars["tas"], skew.value.vars["tasskew"], range.value.vars["tasrange"]);
      var hi := MaxGrid(lo, range.value.vars["tasrange"]);
      match ResetEncoding(enc, reset, Dims(tas.value))
      case Err(e) => Err(e)
      case Ok(enc1) =>
        var fs1 := WriteFile(fs, PathJoin(j.dir, j.tasmin), ToDataset("tasmin", lo));
        Ok((WriteFile(fs1, PathJoin(j.dir, j.tasmax), ToDataset("tasmax", hi)), enc1))
  }

  /** The rebuilt tasmax exceeds the rebuilt tasmin by exactly tasrange in
      every finite cell. */
  lemma {:induction false} CreateGeneralSpan(fs: Fs, j: Job, enc: Encoding, reset: bool)
    requires CreateGeneral(fs, j, enc, reset).Ok?
    requires PathJoin(j.dir, j.tasmin) != PathJoin(j.dir, j.tasmax)
    requires Finite(fs.files[PathJoin(j.dir, j.tas)].vars["tas"]) && Finite(fs.files[PathJoin(j.dir, j.tasskew)].vars["tasskew"])
             && Finite(fs.files[PathJoin(j.dir, j.tasrange)].vars["tasrange"])
    ensures var out := CreateGeneral(fs, j, enc, reset).value.0;
            var lo := out.files[PathJoin(j.dir, j.tasmin)].vars["tasmin"];
            var hi := out.files[PathJoin(j.dir, j.tasmax)].vars["tasmax"];
            hi.Keys == lo.Keys && forall c :: c in hi ==> Sub(hi[c], lo[c]) == fs.files[PathJoin(j.dir, j.tasrange)].vars["tasrange"][c]
  {
    RebuiltSpanIsRange(fs.files[PathJoin(j.dir, j.tas)].vars["tas"], fs.files[PathJoin(j.dir, j.tasskew)].vars["tasskew"],
                       fs.files[PathJoin(j.dir, j.tasrange)].vars["tasrange"]);
  }

  /** Fed the range and skew that the forward transform derived from tas,
      tasmax and tasmin, `create_general_CMIP` writes back exactly that
      tasmin and that tasmax. */
  lemma {:induction false} CreateGeneralRoundTrip(fs: Fs, j: Job, enc: Encoding, reset: bool, tasmax: Grid, tasmin: Grid)
    requires CreateGeneral(fs, j, enc, reset).Ok?
    requires PathJoin(j.dir, j.tasmin) != PathJoin(j.dir, j.tasmax)
    requires var tas := fs.files[PathJoin(j.dir, j.tas)].vars["tas"];
             && Decomposable(tas, tasmax, tasmin)
             && fs.files[PathJoin(j.dir, j.tasrange)].vars["tasrange"] == RangeGrid(tasmax, tasmin)
             && fs.files[PathJoin(j.dir, j.tasskew)].vars["tasskew"] == SkewGrid(tas, tasmin, RangeGrid(tasmax, tasmin))
    ensures var out := CreateGeneral(fs, j, enc, reset).value.0;
            out.files[PathJoin(j.dir, j.tasmin)] == ToDataset("tasmin", tasmin)
            && out.files[PathJoin(j.dir, j.tasmax)] == ToDataset("tasmax", tasmax)
  {
    GridRoundTrip(fs.files[PathJoin(j.dir, j.tas)].vars["tas"], tasmax, tasmin);
  }

  // ---------------------------------------------------------------------------
  // Four isolated attempts

  /** `try: create_...(...) except: pass` — a failed attempt (building the
      names or creating the files) leaves the files and the encoding as they
      were. */
  function TryCreate(fs: Fs, enc: Encoding, reset: bool, job: Result<Job>): (r: (Fs, Encoding)) {
    if job.Err? then (fs, enc)
    else match CreateGeneral(fs, job.value, enc, reset)
      case Ok(out) => out
      case Err(_) => (fs, enc)
  }

  /** The attempts in order, each starting from what the previous left. */
  function TryAll(fs: Fs, enc: Encoding, reset: bool, jobs: seq<Result<Job>>): (r: (Fs, Encoding))
    decreases |jobs|
  {
    if jobs == [] then (fs, enc)
    else
      var s := TryCreate(fs, enc, reset, jobs[0]);
      TryAll(s.0, s.1, reset, jobs[1..])
  }

  lemma {:induction false} TryAllAppend(fs: Fs, enc: Encoding, reset: bool, p: seq<Result<Job>>, q: seq<Result<Job>>)
    ensures var s := TryAll(fs, enc, reset, p);
            TryAll(fs, enc, reset, p + q) == TryAll(s.0, s.1, reset, q)
    decreases |p|
  {
    if p != [] {
      var s := TryCreate(fs, enc, reset, p[0]);
      assert (p + q)[0] == p[0] && (p + q)[1..] == p[1..] + q;
      assert TryAll(fs, enc, reset, p + q) == TryAll(s.0, s.1, reset, p[1..] + q);
      assert TryAll(fs, enc, reset, p) == TryAll(s.0, s.1, reset, p[1..]);
      TryAllAppend(s.0, s.1, reset, p[1..], q);
    } else {
      assert p + q == q;
    }
  }

  /** A failing attempt does not stop the others: the attempts run as if it
      were not there. */
  lemma {:induction false} FailureIsolated(fs: Fs, enc: Encoding, reset: bool, p: seq<Result<Job>>, j: Result<Job>, q: seq<Result<Job>>)
    requires var s := TryAll(fs, enc, reset, p);
             j.Err? || CreateGeneral(s.0, j.value, s.1, reset).Err?
    ensures TryAll(fs, enc, reset, p + [j] + q) == TryAll(fs, enc, reset, p + q)
  {
    var s := TryAll(fs, enc, reset, p);
    TryAllAppend(fs, enc, reset, p, [j] + q);
    assert p + [j] + q == p + ([j] + q);
    assert ([j] + q)[1..] == q;
    TryAllAppend(fs, enc, reset, p, q);
  }

  /** The paths the attempts may write. */
  function Outputs(jobs: seq<Result<Job>>): set<string>
    decreases |jobs|
  {
    if jobs == [] then {}
    else (if jobs[0].Ok? then Written(jobs[0].value) else {}) + Outputs(jobs[1..])
  }

  /** The attempts write nothing but their tasmin and tasmax files and remove
      nothing: every other file is left as it was. */
  lemma {:induction false} TryAllTouchesOnlyOutputs(fs: Fs, enc: Encoding, reset: bool, jobs: seq<Result<Job>>)
    ensures var r := TryAll(fs, enc, reset, jobs).0;
            && r.dirs == fs.dirs && fs.files.Keys <= r.files.Keys <= fs.files.Keys + Outputs(jobs)
            && forall p :: p in fs.files && p !in Outputs(jobs) ==> r.files[p] == fs.files[p]
    decreases |jobs|
  {
    if jobs != [] {
      var s := TryCreate(fs, enc, reset, jobs[0]);
      TryAllTouchesOnlyOutputs(s.0, s.1, reset, jobs[1..]);
    }
  }

  /** Once the chunk sizes hold no 'max' (or no reset is asked for), no
      attempt changes the encoding again: the first attempt that succeeds
      fixes the chunk sizes for all that follow. */
  lemma {:induction false} EncodingSettles(fs: Fs, enc: Encoding, reset: bool, jobs: seq<Result<Job>>)
    requires reset ==> enc.chunksizes.Some? && MAX !in {enc.chunksizes.value.time, enc.chunksizes.value.lat, enc.chunksizes.value.lon}
    ensures TryAll(fs, enc, reset, jobs).1 == enc
    decreases |jobs|
  {
    if jobs != [] {
      var s := TryCreate(fs, enc, reset, jobs[0]);
      assert s.1 == enc;
      EncodingSettles(s.0, s.1, reset, jobs[1..]);
    }
  }

  // ---------------------------------------------------------------------------
  // The combination loops

  /** One combination of the loops; `ensemble` is None in the STITCHES loop. */
  datatype Combo = Combo(esm: string, scenario: string, ensemble: Option<string>, ref: string, period: string)

  /** The member token of the file names: 'STITCHES' or the ensemble member. */
  function Member(c: Combo): string {
    if c.ensemble.None? then "STITCHES" else c.ensemble.value
  }

  /** The four attempts of a combination: daily then monthly bias-adjusted,
      daily then monthly downscaled. */
  function Jobs(c: Combo, start: string, end: string, output: Option<string>): (r: seq<Result<Job>>)
    ensures |r| == 4
  {
    [Builder(c.esm, Member(c), c.scenario, start, end, c.ref, output, Ba, Daily),
     Builder(c.esm, Member(c), c.scenario, start, end, c.ref, output, Ba, Monthly),
     Builder(c.esm, Member(c), c.scenario, start, end, c.ref, output, Basd, Daily),
     Builder(c.esm, Member(c), c.scenario, start, end, c.ref, output, Basd, Monthly)]
  }

  predicate Selects(c: Combo, t: Task) {
    t.esm == c.esm && t.scenario == c.scenario && t.ref == c.ref && t.application == c.period
    && (c.ensemble.Some? ==> t.ensemble == c.ensemble.value)
  }

  /** `run_details[...]['Output_Location'].values[0]`: the first task of the
      combination; IndexError when the combination is not in the list. */
  function OutputOf(rows: seq<Task>, c: Combo): (r: Result<Option<string>>)
    ensures r.Ok? <==> exists i :: 0 <= i < |rows| && Selects(c, rows[i])
    ensures r.Ok? ==> exists i :: 0 <= i < |rows| && Selects(c, rows[i]) && rows[i].output == r.value
  {
    var k := FirstWhere(rows, (t: Task) => Selects(c, t));
    if k.None? then Err(LookupError) else Ok(rows[k.value].output)
  }

  /** The body of either loop: the lookup and the split of the period are
      outside the `try` blocks, so their errors end the script. */
  function ComboStep(fs: Fs, enc: Encoding, reset: bool, rows: seq<Task>, c: Combo): (r: Result<(Fs, Encoding)>)
    ensures r.Ok? <==> OutputOf(rows, c).Ok? && SplitPeriod(c.period).Some?
  {
    var output := OutputOf(rows, c);
    if output.Err? then Err(output.error)
    else match SplitPeriod(c.period)
      case None => Err(SplitError)
      case Some((start, end)) => Ok(TryAll(fs, enc, reset, Jobs(c, start, end, output.value)))
  }

  /** The files, the shared encoding and the error that ended the loop. */
  datatype Progress = Progress(fs: Fs, enc: Encoding, error: Option<string>)

  function RunCombos(fs: Fs, enc: Encoding, reset: bool, rows: seq<Task>, combos: seq<Combo>): Progress
    decreases |combos|
  {
    if combos == [] then Progress(fs, enc, None)
    else match ComboStep(fs, enc, reset, rows, combos[0])
      case Err(e) => Progress(fs, enc, Some(e))
      case Ok(s) => RunCombos(s.0, s.1, reset, rows, combos[1..])
  }

  /** One turn of the loop from position `i`. */
  lemma RunCombosAt(fs: Fs, enc: Encoding, reset: bool, rows: seq<Task>, combos: seq<Combo>, i: nat)
    requires i < |combos|
    ensures RunCombos(fs, enc, reset, rows, combos[i..]) ==
            match ComboStep(fs, enc, reset, rows, combos[i])
            case Err(e) => Progress(fs, enc, Some(e))
            case Ok(s) => RunCombos(s.0, s.1, reset, rows, combos[i + 1..])
  {
    assert combos[i..][0] == combos[i] && combos[i..][1..] == combos[i + 1..];
  }

  /** However far the loop gets, no file or directory is removed. */
  lemma {:induction false} RunCombosKeepsFiles(fs: Fs, enc: Encoding, reset: bool, rows: seq<Task>, combos: seq<Combo>)
    ensures var r := RunCombos(fs, enc, reset, rows, combos);
            fs.files.Keys <= r.fs.files.Keys && r.fs.dirs == fs.dirs
    decreases |combos|
  {
    if combos != [] {
      var step := ComboStep(fs, enc, reset, rows, combos[0]);
      if step.Ok? {
        var (start, end) := SplitPeriod(combos[0].period).value;
        TryAllTouchesOnlyOutputs(fs, enc, reset, Jobs(combos[0], start, end, OutputOf(rows, combos[0]).value));
        RunCombosKeepsFiles(step.value.0, step.value.1, reset, rows, combos[1..]);
      }
    }
  }

  /** The loop stops at a combination exactly when that combination is not
      in the task list or its period does not split. */
  lemma {:induction false} RunCombosCompletes(fs: Fs, enc: Encoding, reset: bool, rows: seq<Task>, combos: seq<Combo>)
    requires forall c :: c in combos ==> (exists i :: 0 <= i < |rows| && Selects(c, rows[i])) && OneDash(c.period)
    ensures RunCombos(fs, enc, reset, rows, combos).error.None?
    decreases |combos|
  {
    if combos != [] {
      assert combos[0] in combos;
      SplitPeriodOneDash(combos[0].period);
      var step := ComboStep(fs, enc, reset, rows, combos[0]);
      assert forall c :: c in combos[1..] ==> c in combos;
      RunCombosCompletes(step.value.0, step.value.1, reset, rows, combos[1..]);
    }
  }

  /** The combinations of `create_tasmin_tasmax_stitched`: unique ESMs,
      scenarios, reference datasets and application periods, nested in that
      order. */
  function StitchedCombos(rows: seq<Task>): (r: seq<Combo>)
    ensures forall c :: c in r <==> c.ensemble.None? && c.esm in UniqueOf(rows, (t: Task) => t.esm)
                                     && c.scenario in UniqueOf(rows, (t: Task) => t.scenario)
                                     && c.ref in UniqueOf(rows, (t: Task) => t.ref)
                                     && c.period in UniqueOf(rows, (t: Task) => t.application)
  {
    var esms := UniqueOf(rows, (t: Task) => t.esm);
    var scenarios := UniqueOf(rows, (t: Task) => t.scenario);
    var refs := UniqueOf(rows, (t: Task) => t.ref);
    var periods := UniqueOf(rows, (t: Task) => t.application);
    var p := Product(esms, Product(scenarios, Product(refs, periods)));
    var r := seq(|p|, i requires 0 <= i < |p| => Combo(p[i].0, p[i].1.0, None, p[i].1.1.0, p[i].1.1.1));
    forall c ensures c in r <==> c.ensemble.None? && c.esm in esms && c.scenario in scenarios && c.ref in refs && c.period in periods {
      ProductCovers(refs, periods, c.ref, c.period);
      ProductCovers(scenarios, Product(refs, periods), c.scenario, (c.ref, c.period));
      ProductCovers(esms, Product(scenarios, Product(refs, periods)), c.esm, (c.scenario, (c.ref, c.period)));
      if c in r {
        var i :| 0 <= i < |p| && r[i] == c;
        assert p[i] in p;
      }
      if c.ensemble.None? && c.esm in esms && c.scenario in scenarios && c.ref in refs && c.period in periods {
        var i :| 0 <= i < |p| && p[i] == (c.esm, (c.scenario, (c.ref, c.period)));
        assert r[i] == c;
      }
    }
    r
  }

  /** The combinations of `create_tasmin_tasmax_CMIP`: unique ESMs,
      scenarios, ensemble members, reference datasets and application
      periods, nested in that order. */
  function CmipCombos(rows: seq<Task>): (r: seq<Combo>)
    ensures forall c :: c in r <==> c.ensemble.Some? && c.esm in UniqueOf(rows, (t: Task) => t.esm)
                                     && c.scenario in UniqueOf(rows, (t: Task) => t.scenario)
                                     && c.ensemble.value in UniqueOf(rows, (t: Task) => t.ensemble)
                                     && c.ref in UniqueOf(rows, (t: Task) => t.ref)
                                     && c.period in UniqueOf(rows, (t: Task) => t.application)
  {
    var esms := UniqueOf(rows, (t: Task) => t.esm);
    var scenarios := UniqueOf(rows, (t: Task) => t.scenario);
    var ensembles := UniqueOf(rows, (t: Task) => t.ensemble);
    var refs := UniqueOf(rows, (t: Task) => t.ref);
    var periods := UniqueOf(rows, (t: Task) => t.application);
    var inner := Product(ensembles, Product(refs, periods));
    var p := Product(esms, Product(scenarios, inner));
    var r := seq(|p|, i requires 0 <= i < |p| => Combo(p[i].0, p[i].1.0, Some(p[i].1.1.0), p[i].1.1.1.0, p[i].1.1.1.1));
    forall c ensures c in r <==> c.ensemble.Some? && c.esm in esms && c.scenario in scenarios && c.ensemble.value in ensembles
                                 && c.ref in refs && c.period in periods {
      if c.ensemble.Some? {
        var e := c.ensemble.value;
        ProductCovers(refs, periods, c.ref, c.period);
        ProductCovers(ensembles, Product(refs, periods), e, (c.ref, c.period));
        ProductCovers(scenarios, inner, c.scenario, (e, (c.ref, c.period)));
        ProductCovers(esms, Product(scenarios, inner), c.esm, (c.scenario, (e, (c.ref, c.period))));
        if c in r {
          var i :| 0 <= i < |p| && r[i] == c;
          assert p[i] in p;
        }
        if c.esm in esms && c.scenario in scenarios && e in ensembles && c.ref in refs && c.period in periods {
          var i :| 0 <= i < |p| && p[i] == (c.esm, (c.scenario, (e, (c.ref, c.period))));
          assert r[i] == c;
        }
      }
    }
    r
  }

  // ---------------------------------------------------------------------------
  // The script

  /** The task list the script reads, under the run's intermediate directory. */
  const TaskListName: string := "run_manager_explicit_list.csv"

  function TaskListPath(runDirectory: string): string {
    PathJoin(PathJoin("intermediate", runDirectory), TaskListName)
  }

  /** The script's `__main__`: the encoding and the tasmin and tasmax
      attributes are read, then the STITCHES or the CMIP6 loop runs
      according to the first task's flag. `get_encoding` and
      `get_attributes` are taken as evidently meant. */
  function Script(fs: Fs, list: TaskList, encoding: Table, attributes: Table): (r: Progress)
    requires WellFormed(encoding) && WellFormed(attributes)
  {
    var blank := Encoding(map[], None);
    match GetEncodingIntended(encoding)
    case Err(e) => Progress(fs, blank, Some(e))
    case Ok((enc, reset)) =>
      if GetAttributesWithFallback(attributes, "tasmin").Err? then Progress(fs, enc, Some(GetAttributesWithFallback(attributes, "tasmin").error))
      else if GetAttributesWithFallback(attributes, "tasmax").Err? then Progress(fs, enc, Some(GetAttributesWithFallback(attributes, "tasmax").error))
      else match FirstIsStitched(list)
        case Err(e) => Progress(fs, enc, Some(e))
        case Ok(true) => RunCombos(fs, enc, reset, list.rows, StitchedCombos(list.rows))
        case Ok(false) => RunCombos(fs, enc, reset, list.rows, CmipCombos(list.rows))
  }

  /** The task list written by the manifest generator has no `stitched`
      column, so the script as a whole stops before any attempt. */
  lemma NoStitchedColumnStops(fs: Fs, list: TaskList, encoding: Table, attributes: Table)
    requires WellFormed(encoding) && WellFormed(attributes)
    requires !list.hasStitched
    ensures Script(fs, list, encoding, attributes).error.Some? && Script(fs, list, encoding, attributes).fs == fs
  {
  }

  // ---------------------------------------------------------------------------
  // The same, as the script runs it: step by step on the file system

  /** `create_general_CMIP` on the file system in place; the encoding it
      leaves is returned. */
  method CreateGeneralOn(store: Store, j: Job, enc: Encoding, reset: bool) returns (r: Result<Encoding>)
    modifies store
    ensures var spec := CreateGeneral(old(store.State()), j, enc, reset);
            (r.Ok? <==> spec.Ok?) && (r.Ok? ==> r.value == spec.value.1 && store.State() == spec.value.0)
            && (r.Err? ==> store.State() == old(store.State()))
  {
    var fs := store.State();
    var tas := OpenPath(fs, PathJoin(j.dir, j.tas));
    var range := OpenPath(fs, PathJoin(j.dir, j.tasrange));
    var skew := OpenPath(fs, PathJoin(j.dir, j.tasskew));
    if tas.Err? {
      return Err(tas.error);
    } else if range.Err? {
      return Err(range.error);
    } else if skew.Err? {
      return Err(skew.error);
    } else if "tas" !in tas.value.vars {
      return Err("KeyError: 'tas'");
    } else if "tasskew" !in skew.value.vars {
      return Err("KeyError: 'tasskew'");
    } else if "tasrange" !in range.value.vars {
      return Err("KeyError: 'tasrange'");
    }
    var lo := MinGrid(tas.value.vars["tas"], skew.value.vars["tasskew"], range.value.vars["tasrange"]);
    var hi := MaxGrid(lo, range.value.vars["tasrange"]);
    var enc1 := ResetEncoding(enc, reset, Dims(tas.value));
    if enc1.Err? {
      return Err(enc1.error);
    }
    store.Write(PathJoin(j.dir, j.tasmin), ToDataset("tasmin", lo));
    store.Write(PathJoin(j.dir, j.tasmax), ToDataset("tasmax", hi));
    r := Ok(enc1.value);
  }

  /** One `try` block. */
  method TryCreateOn(store: Store, enc: Encoding, reset: bool, job: Result<Job>) returns (enc': Encoding)
    modifies store
    ensures (store.State(), enc') == TryCreate(old(store.State()), enc, reset, job)
  {
    if job.Err? {
      return enc;
    }
    var r := CreateGeneralOn(store, job.value, enc, reset);
    enc' := if r.Ok? then r.value else enc;
  }

  /** The four `try` blocks of one combination. */
  method TryFourOn(store: Store, enc: Encoding, reset: bool, jobs: seq<Result<Job>>) returns (enc': Encoding)
    requires |jobs| == 4
    modifies store
    ensures (store.State(), enc') == TryAll(old(store.State()), enc, reset, jobs)
  {
    ghost var fs := store.State();
    var e1 := TryCreateOn(store, enc, reset, jobs[0]);
    assert TryAll(fs, enc, reset, jobs) == TryAll(store.State(), e1, reset, jobs[1..]);
    ghost var fs1 := store.State();
    var e2 := TryCreateOn(store, e1, reset, jobs[1]);
    assert TryAll(fs1, e1, reset, jobs[1..]) == TryAll(store.State(), e2, reset, jobs[2..]) by {
      assert jobs[1..][0] == jobs[1] && jobs[1..][1..] == jobs[2..];
    }
    ghost var fs2 := store.State();
    var e3 := TryCreateOn(store, e2, reset, jobs[2]);
    assert TryAll(fs2, e2, reset, jobs[2..]) == TryAll(store.State(), e3, reset, jobs[3..]) by {
      assert jobs[2..][0] == jobs[2] && jobs[2..][1..] == jobs[3..];
    }
    ghost var fs3 := store.State();
    enc' := TryCreateOn(store, e3, reset, jobs[3]);
    assert TryAll(fs3, e3, reset, jobs[3..]) == TryAll(store.State(), enc', reset, []) by {
      assert jobs[3..][0] == jobs[3] && jobs[3..][1..] == [];
    }
  }

  /** The body of either loop for one combination. */
  method ComboOn(store: Store, enc: Encoding, reset: bool, rows: seq<Task>, c: Combo) returns (r: Result<Encoding>)
    modifies store
    ensures var spec := ComboStep(old(store.State()), enc, reset, rows, c);
            (r.Ok? <==> spec.Ok?) && (r.Ok? ==> r.value == spec.value.1 && store.State() == spec.value.0)
            && (r.Err? ==> r.error == spec.error && store.State() == old(store.State()))
  {
    var output := OutputOf(rows, c);
    if output.Err? {
      return Err(output.error);
    }
    var period := SplitPeriod(c.period);
    if period.None? {
      return Err(SplitError);
    }
    var e := TryFourOn(store, enc, reset, Jobs(c, period.value.0, period.value.1, output.value));
    r := Ok(e);
  }

  /** `create_tasmin_tasmax_stitched` and `create_tasmin_tasmax_CMIP`: the
      nested loops, flattened in the same order. */
  method RunCombosOn(store: Store, enc: Encoding, reset: bool, rows: seq<Task>, combos: seq<Combo>) returns (p: Progress)
    modifies store
    ensures p == RunCombos(old(store.State()), enc, reset, rows, combos) && store.State() == p.fs
  {
    var e := enc;
    var i := 0;
    while i < |combos|
      invariant 0 <= i <= |combos|
      invariant RunCombos(old(store.State()), enc, reset, rows, combos) == RunCombos(store.State(), e, reset, rows, combos[i..])
    {
      RunCombosAt(store.State(), e, reset, rows, combos, i);
      var r := ComboOn(store, e, reset, rows, combos[i]);
      if r.Err? {
        return Progress(store.State(), e, Some(r.error));
      }
      e := r.value;
      i := i + 1;
    }
    p := Progress(store.State(), e, None);
  }

  /** The script's `__main__` on the file system in place. */
  method ScriptOn(store: Store, list: TaskList, encoding: Table, attributes: Table) returns (p: Progress)
    requires WellFormed(encoding) && WellFormed(attributes)
    modifies store
    ensures p == Script(old(store.State()), list, encoding, attributes) && store.State() == p.fs
  {
    var read := GetEncodingIntended(encoding);
    if read.Err? {
      return Progress(store.State(), Encoding(map[], None), Some(read.error));
    }
    var (enc, reset) := read.value;
    var tasminAttrs := GetAttributesWithFallback(attributes, "tasmin");
    if tasminAttrs.Err? {
      return Progress(store.State(), enc, Some(tasminAttrs.error));
    }
    var tasmaxAttrs := GetAttributesWithFallback(attributes, "tasmax");
    if tasmaxAttrs.Err? {
      return Progress(store.State(), enc, Some(tasmaxAttrs.error));
    }
    var stitched := FirstIsStitched(list);
    if stitched.Err? {
      return Progress(store.State(), enc, Some(stitched.error));
    }
    if stitched.value {
      p := RunCombosOn(store, enc, reset, list.rows, StitchedCombos(list.rows));
    } else {
      p := RunCombosOn(store, enc, reset, list.rows, CmipCombos(list.rows));
    }
  }
}
