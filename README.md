# Bias adjustment and downscaling pipeline — a Dafny model

This project models the Python driver scripts of a climate-data pipeline
that bias-adjusts and downscales Earth-system-model (ESM) output against a
reference dataset, one Slurm array task per combination of ESM, variable,
scenario, ensemble member, reference dataset and period. Daily minimum and
maximum temperature are adjusted indirectly: tas, tasrange and tasskew are
derived from tas, tasmin and tasmax before adjustment, adjusted, and tasmin
and tasmax are rebuilt from them afterwards.

The model covers:

- the expansion of a run manager into the explicit task list and the Slurm
  job file, and the array task's pick of its row (`Manifest`, `Tasks`);
- the configuration helpers for parameters, attributes, NetCDF encoding and
  chunk sizes (`Utils`);
- the forward and inverse temperature transforms on cells and on gridded
  arrays (`Transform`), and the stages that apply them to every combination
  in the task list (`RangeSkew`, `MinMax`);
- the three per-task drivers (CMIP6 data on disk, STITCHES data on disk,
  CMIP6 data fetched from the Pangeo archive) with their shared steps
  (`Downloaded`, `Stitched`, `Pangeo`, `BasdStage`, `Catalogue`);
- the helpers that prepare a STITCHES target trajectory and fix its recipe
  (`StitchGen`);
- the file system these stages share (`Files`), and lemmas showing that
  each stage finds its inputs under the names an earlier stage wrote them
  (`Agreement`).

Pure code (naming, lookups, transforms, list operations) is modelled as
functions with lemmas. The stage loops and the drivers' step sequences,
which change files and module-level variables, are methods on a
`Files.Store` or on a per-driver `Run` class; each method's `ensures` ties
its result and the new state to a specification function of the old state.
The properties are proved about those functions.

## Model

| member | source | states |
|---|---|---|
| Common.Filter | code/python/create_tasrange_tasskew.py:208 | boolean indexing keeps exactly the rows that satisfy the mask, each one taken from the input |
| Common.FilterAppend | code/python/create_tasrange_tasskew.py:208 | masking distributes over concatenation, so kept rows stay in their order |
| Common.Dedup | code/python/create_tasrange_tasskew.py:213 | `drop_duplicates()` leaves every row that occurred, each once, and nothing new; the order of first occurrences is pinned by `DedupSnoc` and `DedupPrefix` |
| Common.DedupSnoc | code/python/create_tasrange_tasskew.py:213 | one more row is kept, at the end, exactly when it has not occurred before |
| Common.DedupPrefix | code/python/create_tasrange_tasskew.py:213 | later rows never move earlier ones: what is kept of a prefix stays in front, in its order |
| Common.DedupFirstWhere | code/python/pangeo.py:287-298 | dropping duplicates never changes which value is the first to meet a condition, so `.iloc[0]` reads the same row |
| Common.Insert | code/python/create_tasmin_tasmax.py:77-80 | inserting into a sorted list keeps it sorted and adds exactly the one value |
| Common.Unique | code/python/create_tasmin_tasmax.py:77-80 | `np.unique` gives the values that occur, each once, in increasing order |
| Common.Union1d | code/python/job-script-generation.py:52 | `np.union1d` gives, in increasing order, exactly the values found in either list |
| Common.SetDiff1d | code/python/job-script-generation.py:52 | `np.setdiff1d` gives, in increasing order, exactly the values of the first list that the second lacks |
| Common.SortedNoDup | code/python/create_tasmin_tasmax.py:77-80 | a strictly increasing list repeats no value |
| Common.SortedDeterminedByElements | code/python/create_tasmin_tasmax.py:77-80 | two strictly increasing lists with the same values are the same list, so the unique values are fixed by the values alone |
| Common.LeastExists | code/python/create_tasrange_tasskew.py:155 | a non-empty finite set of names has a least element |
| Common.SortedSet | code/python/create_tasrange_tasskew.py:155 | a set of paths listed in increasing order: the same paths, each once |
| Common.Product | code/python/create_tasmin_tasmax.py:82-85 | nested loops run once for every pair of values |
| Common.ProductCovers | code/python/create_tasmin_tasmax.py:82-85 | nested loops visit every pair of values from the two lists and nothing else |
| Common.ProductIndex | code/python/create_tasmin_tasmax.py:82-85 | iteration `i·|ys| + j` visits `(xs[i], ys[j])`: the outer loop is the slower one |
| Common.IndexOf | code/python/downloaded.py:205 | reports the first position of the character, or nothing when it does not occur |
| Common.SplitPeriod | code/python/downloaded.py:205 | a successful split gives two dash-free halves that join back, with a dash, into the period |
| Common.SplitPeriodOfJoin | code/python/downloaded.py:205 | splitting `start-end` gives back `start` and `end` |
| Common.SplitPeriodOneDash | code/python/downloaded.py:205 | unpacking the split succeeds exactly when the period holds one dash; with none, or two or more, it raises |
| Common.PathJoinName | code/python/create_tasrange_tasskew.py:48 | joining a separator-free name onto a directory ends in that name after a separator, or is the name alone |
| Common.PathJoin | code/python/create_tasrange_tasskew.py:48 | POSIX `os.path.join` of two parts; its partner lemmas `PathJoinName` (a relative name ends the path) and `RangeSkew.PathJoinInjective` (distinct relative names give distinct paths) state it |
| Common.JoinAll | code/python/downloaded.py:196-203 | `os.path.join` of a base and several parts, one part at a time; `Agreement.JoinAllSnoc` states that one more part is one more join, which the cross-stage lemmas use |
| Common.NatToString | code/python/job-script-generation.py:105 | `str(n)` is a non-empty run of digits |
| Common.ParseNatToString | code/python/job-script-generation.py:105 | reading back the rendered count gives the count |
| Common.NatToStringInjective | code/python/job-script-generation.py:105 | distinct counts are rendered as distinct text |
| Common.Iloc | code/python/main.py:28 | `iloc[i]` succeeds exactly for −N ≤ i < N |
| Common.FirstWhere | code/python/create_tasrange_tasskew.py:40-44 | `df[condition].values[0]` reads the first row meeting the condition, and there is none only when no row meets it |
| Common.FilterFirstWhere | code/python/pangeo.py:334-339 | masking a table and then taking the first row meeting a condition finds the same row as searching the unmasked table for both conditions |
| Transform.CellRoundTrip | code/python/create_tasmin_tasmax.py:43-46 | on one cell whose extremes differ, the inverse transform applied to the forward transform's range and skew gives back tasmin and tasmax exactly |
| Transform.CellInverseRoundTrip | code/python/create_tasrange_tasskew.py:63-65 | on one cell with a non-zero range, the forward transform applied to the inverse's tasmin and tasmax gives back the range and the skew |
| Transform.CellZeroRange | code/python/create_tasrange_tasskew.py:65 | there is no zero-range guard: equal extremes give a non-finite skew |
| Transform.SkewIsFraction | code/python/create_tasrange_tasskew.py:65 | when tas lies between distinct extremes the skew lies in [0, 1] |
| Transform.RangeOf | code/python/create_tasrange_tasskew.py:63 | tasrange of one cell; `CellRoundTrip` and `CellInverseRoundTrip` state that it and `SkewOf` are inverted by `MinOf` and `MaxOf` |
| Transform.SkewOf | code/python/create_tasrange_tasskew.py:65 | tasskew of one cell; `SkewIsFraction` bounds it to [0, 1] for tas between distinct extremes and `CellZeroRange` makes it non-finite for equal extremes |
| Transform.MinOf | code/python/create_tasmin_tasmax.py:43 | tasmin of one cell; `CellRoundTrip` states that it gives back the original tasmin |
| Transform.MaxOf | code/python/create_tasmin_tasmax.py:46 | tasmax of one cell; `CellRoundTrip` states that it gives back the original tasmax |
| Transform.RangeGrid | code/python/create_tasrange_tasskew.py:63 | tasmax − tasmin covers exactly the coordinates the two arrays share |
| Transform.SkewGrid | code/python/create_tasrange_tasskew.py:65 | (tas − tasmin) / tasrange covers exactly the coordinates the three arrays share |
| Transform.MinGrid | code/python/create_tasmin_tasmax.py:43 | tas − tasskew·tasrange covers exactly the coordinates the three arrays share |
| Transform.MaxGrid | code/python/create_tasmin_tasmax.py:46 | tasmin + tasrange covers exactly the coordinates the two arrays share |
| Transform.GridRoundTrip | code/python/create_tasmin_tasmax.py:43-46 | over whole arrays with finite values and distinct extremes, the forward transform then the inverse rebuilds tasmin and tasmax exactly |
| Transform.RebuiltSpanIsRange | code/python/create_tasmin_tasmax.py:43-46 | wherever the inputs are finite, the rebuilt tasmax − tasmin equals tasrange |
| Transform.GridInverseRoundTrip | code/python/create_tasrange_tasskew.py:63-65 | over whole arrays with a non-zero range, the inverse then the forward transform gives back tasrange and tasskew |
| Files.Glob | code/python/create_tasrange_tasskew.py:126-128 | a wildcard glob lists, in sorted order, exactly the files under the directory that match the prefix and suffix |
| Files.Matches | code/python/create_tasrange_tasskew.py:126-128 | the `prefix*suffix` pattern, whose wildcard does not cross a separator; `Files.JoinMatches` and `Files.GlobSeesFile` state that a name the stage writes is found by its own pattern, and `RangeSkew.OtherPrefixNoMatch` that a tasrange name is not found by the tasskew pattern |
| Files.GlobExact | code/python/create_tasrange_tasskew.py:48-50 | a glob without wildcards is non-empty iff that one path exists, and lists nothing else |
| Files.JoinMatches | code/python/create_tasrange_tasskew.py:155-157 | the name a gated write uses matches the pattern the gate checks |
| Files.GlobSeesFile | code/python/create_tasrange_tasskew.py:155-157 | once such a file exists, the gate's glob is non-empty |
| Files.Merge | code/python/create_tasrange_tasskew.py:136-138 | opening several files pools their coordinates and their variables |
| Files.OpenMf | code/python/create_tasrange_tasskew.py:58-60 | `open_mfdataset` succeeds iff the list is non-empty and every file exists; a single file opens as itself |
| Files.Variable | code/python/create_tasrange_tasskew.py:63 | `ds[name]` succeeds iff the variable exists, and returns it |
| Files.SelectYears | code/python/stitched.py:164-174 | a year slice keeps the coordinates and variables and exactly the cells whose year lies in the inclusive bounds, each with its value unchanged |
| Files.KeepOnly | code/python/downloaded.py:174-179 | dropping leaves only the time, lat and lon coordinates and only the requested variable, unchanged |
| Files.MakeDirs | code/python/downloaded.py:227-242 | `os.makedirs` succeeds iff the directory is new, and adds it and its parents without touching any file |
| Files.EnsureDir | code/python/downloaded.py:227-242 | tolerating FileExistsError, the directory exists afterwards, no file changes and no directory disappears |
| Files.EnsureDirIdempotent | code/python/downloaded.py:227-242 | creating a directory twice in this way is the same as creating it once |
| Files.WriteFile | code/python/create_tasrange_tasskew.py:75 | `to_netcdf` creates or replaces exactly the one file |
| Files.RemoveFile | code/python/downloaded.py:141-146 | `os.remove` succeeds iff the file exists, and removes exactly that file |
| Files.RemoveTree | code/python/pangeo.py:116-120 | `shutil.rmtree` succeeds iff the directory exists, and removes exactly what lies below it, keeping every other file unchanged |
| Files.Store.constructor | code/python/downloaded.py:227-242 | the store starts in the given state |
| Files.Store.Write | code/python/create_tasrange_tasskew.py:75 | the in-place write leaves the store in the state `WriteFile` specifies |
| Files.Store.EnsureDirectory | code/python/downloaded.py:227-242 | the in-place directory creation leaves the store in the state `EnsureDir` specifies |
| Files.Store.Remove | code/python/downloaded.py:141-146 | the in-place removal raises or updates the store exactly as `RemoveFile` specifies |
| Files.Store.RemoveDirectoryTree | code/python/pangeo.py:116-120 | the in-place tree removal raises or updates the store exactly as `RemoveTree` specifies |
| RangeSkew.StitchedName | code/python/create_tasrange_tasskew.py:48-50 | the STITCHES file name; `StitchedStepWrites` uses that the tasrange and tasskew names differ, and `Agreement.StitchedSeriesIsLoadable` that the driver opens what the stage writes |
| RangeSkew.DailyPrefix | code/python/create_tasrange_tasskew.py:126-128 | the CMIP6 name up to its date range; `GatedPairWrites` states that the tasrange and tasskew patterns do not see each other's files, and `Agreement.GatedSeriesIsLoadable` that the driver's pattern finds the gated write |
| RangeSkew.PangeoOutputDir | code/python/create_tasrange_tasskew.py:263 | the Pangeo output directory; `PangeoStepWrites` states that the combination creates it and writes into it |
| RangeSkew.Derive | code/python/create_tasrange_tasskew.py:63-69 | the derived datasets hold only `tasrange` and `tasskew`, computed by the forward transform; a missing input variable raises |
| RangeSkew.DeriveRoundTrip | code/python/create_tasrange_tasskew.py:63-69 | what the stage writes is enough to rebuild tasmin and tasmax exactly with the inverse transform |
| RangeSkew.Gate | code/python/create_tasrange_tasskew.py:153-160 | the output is written under `prefix{stamp}.nc` when no file matches `prefix*.nc`, and otherwise the file system is unchanged |
| RangeSkew.GateNeverOverwrites | code/python/create_tasrange_tasskew.py:153-169 | a gated write never replaces or removes an existing file, and adds at most the one file it names |
| RangeSkew.ExactGate | code/python/create_tasrange_tasskew.py:71-87 | the exact-name gate writes only when that file is absent, and never changes an existing file |
| RangeSkew.StitchedLocation | code/python/create_tasrange_tasskew.py:40-44 | the input location is that of a row for the ESM and scenario, and the lookup raises iff there is no such row |
| RangeSkew.StitchedMissingInputAborts | code/python/create_tasrange_tasskew.py:47-60 | as written, `next` does nothing: a missing stitched input reaches `open_mfdataset` on an empty list and ends the stage with an exception |
| RangeSkew.StitchedMissingInputSkipped | code/python/create_tasrange_tasskew.py:47-55 | with the evidently intended skip, the same combination leaves the file system alone and the stage continues |
| RangeSkew.StitchedStepWrites | code/python/create_tasrange_tasskew.py:57-78 | with all inputs present and no tasrange file yet, the stored tasrange is tasmax − tasmin of the inputs |
| RangeSkew.StitchedStepPreserves | code/python/create_tasrange_tasskew.py:36-87 | one STITCHES combination never changes or removes an existing file |
| RangeSkew.StitchedCombos | code/python/create_tasrange_tasskew.py:33-37 | the loop visits exactly the pairs of a unique ESM and a unique scenario |
| RangeSkew.RunStitchedPreserves | code/python/create_tasrange_tasskew.py:31-89 | the whole STITCHES variant never changes or removes an existing file, however far it gets |
| RangeSkew.PangeoStepPreserves | code/python/create_tasrange_tasskew.py:236-285 | the Pangeo variant only adds directories and files |
| RangeSkew.GatedPairWrites | code/python/create_tasrange_tasskew.py:155-166 | with no tasrange file of its pattern, the tasrange write lands and survives the tasskew write; with no tasskew file either, the tasskew write lands too |
| RangeSkew.PangeoStepWrites | code/python/create_tasrange_tasskew.py:250-283 | a Pangeo combination whose three stores are listed and reachable ends without exception, creates the output directory and writes tasrange as the difference of the fetched extremes, and tasskew from that range, each unless a file of its pattern is already there |
| RangeSkew.CmipLocation | code/python/create_tasrange_tasskew.py:103-114 | for 'historical' the lookup matches ESM and ensemble only, otherwise the scenario too, and raises iff no row matches |
| RangeSkew.HistoricalIgnoresScenario | code/python/create_tasrange_tasskew.py:103-107 | changing only the Scenario cells of the rows cannot change the historical lookup |
| RangeSkew.CmipMissingLocationUsesPangeo | code/python/create_tasrange_tasskew.py:115-122 | a missing input location hands the combination to the Pangeo variant, whose error is raised again |
| RangeSkew.CmipMissingInputSkipped | code/python/create_tasrange_tasskew.py:124-133 | a missing tas, tasmax or tasmin input skips the combination without writing anything |
| RangeSkew.CmipStepPreserves | code/python/create_tasrange_tasskew.py:98-170 | one CMIP6 combination never changes or removes an existing file |
| RangeSkew.CmipStepWrites | code/python/create_tasrange_tasskew.py:124-166 | a CMIP6 combination with its location and its three inputs found ends without exception and writes, next to the inputs, tasrange as the difference of the opened extremes and tasskew from that range, each unless a file of its pattern is already there |
| RangeSkew.CmipFromDir | code/python/create_tasrange_tasskew.py:124-169 | the combination once its location is known; stated by `CmipStepWrites` and `CmipMissingInputSkipped` |
| RangeSkew.CmipScenarios | code/python/create_tasrange_tasskew.py:94 | the scenarios visited are the unique scenarios followed by 'historical' |
| RangeSkew.CmipCombos | code/python/create_tasrange_tasskew.py:94-100 | the loop visits exactly the triples of a unique ESM, a visited scenario and a unique ensemble member |
| RangeSkew.RunCmipPreserves | code/python/create_tasrange_tasskew.py:92-174 | the whole CMIP6 variant never changes or removes an existing file, however far it gets |
| RangeSkew.RangeSkewTasks | code/python/create_tasrange_tasskew.py:303 | exactly the rows whose Variable is tasrange or tasskew are kept |
| RangeSkew.RunScriptPreserves | code/python/create_tasrange_tasskew.py:300-309 | whatever the tasks and inputs, the script never changes or removes an existing file |
| RangeSkew.WriteIfAbsent | code/python/create_tasrange_tasskew.py:153-160 | the in-place gated write leaves the store as `Gate` specifies |
| RangeSkew.WriteIfNameAbsent | code/python/create_tasrange_tasskew.py:71-78 | the in-place exact-name gate leaves the store as `ExactGate` specifies |
| RangeSkew.CreateStitched | code/python/create_tasrange_tasskew.py:31-89 | the STITCHES loop ends in the state and with the error that `RunStitched` gives over the loop's combinations |
| RangeSkew.RunStitched | code/python/create_tasrange_tasskew.py:31-89 | the STITCHES loop, stopping at the first exception; stated by `RunStitchedPreserves` |
| RangeSkew.StitchedCombination | code/python/create_tasrange_tasskew.py:38-87 | one pass of the STITCHES loop body ends as `StitchedStep` specifies |
| RangeSkew.StitchedStep | code/python/create_tasrange_tasskew.py:38-87 | one STITCHES combination; stated by `StitchedStepWrites`, `StitchedStepPreserves` and the two missing-input lemmas |
| RangeSkew.CreatePangeo | code/python/create_tasrange_tasskew.py:236-285 | the Pangeo variant ends as `PangeoStep` specifies |
| RangeSkew.PangeoStep | code/python/create_tasrange_tasskew.py:236-285 | one Pangeo combination; stated by `PangeoStepWrites` (what it writes) and `PangeoStepPreserves` (nothing existing changes) |
| RangeSkew.CmipCombination | code/python/create_tasrange_tasskew.py:101-169 | one pass of the CMIP6 loop body ends as `CmipStep` specifies |
| RangeSkew.CmipStep | code/python/create_tasrange_tasskew.py:101-169 | one CMIP6 combination; stated by `CmipStepWrites` (what it writes), `CmipStepPreserves`, `CmipMissingLocationUsesPangeo` and `CmipMissingInputSkipped` |
| RangeSkew.CreateCmip | code/python/create_tasrange_tasskew.py:92-174 | the CMIP6 loops end in the state and with the error that `RunCmip` gives over the loop's combinations |
| RangeSkew.RunCmip | code/python/create_tasrange_tasskew.py:92-174 | the CMIP6 loops, stopping at the first exception; stated by `RunCmipPreserves` |
| RangeSkew.CmipLoop | code/python/create_tasrange_tasskew.py:98-100 | the nested loops, run over any list of combinations, end as `RunCmip` specifies |
| RangeSkew.CreateRangeSkew | code/python/create_tasrange_tasskew.py:300-309 | the script ends as `RunScript` specifies: filter, then the STITCHES or CMIP6 variant by the first row's flag |
| RangeSkew.RunScript | code/python/create_tasrange_tasskew.py:300-309 | the whole script as a function; stated by `RunScriptPreserves` |
| BasdStage.RunDir | code/python/downloaded.py:196-203 | output/reference/ESM/scenario; `Agreement.LayoutFeedsMinMax` states that it is the directory the tasmin/tasmax builders use |
| BasdStage.OutputName | code/python/downloaded.py:208-209 | the output file name; `DailyMonthlyNamesDiffer` separates daily from monthly, and `Agreement.LayoutFeedsMinMax` equates it with the builders' names |
| BasdStage.DailyMonthlyNamesDiffer | code/python/downloaded.py:208-209 | the daily and monthly file names of an output never coincide |
| BasdStage.Years | code/python/downloaded.py:165-171 | a period yields year bounds only when it holds exactly one dash; with none or several, the unpacking raises |
| BasdStage.YearsOfPeriod | code/python/downloaded.py:165-171 | a period written from two years is read back as those two years |
| BasdStage.Trim | code/python/utils.py:102-107 | the trimmed dataset keeps only time, lat and lon coordinates, every variable, and exactly the cells inside the inclusive year bounds, each with its value unchanged |
| BasdStage.OpenPattern | code/python/downloaded.py:160-162 | a wildcard open succeeds iff the directory cell is present and at least one file matches |
| BasdStage.OpenPath | code/python/stitched.py:156-160 | an open without wildcards succeeds iff that file exists, and gives its contents |
| BasdStage.LoadSdData | code/python/utils.py:89-109 | downscaling data loads iff an observation file matches, the bias-adjusted daily file exists and both periods hold one dash and two years; the observations are the opened observation files trimmed to the target period, and the simulation is the daily file trimmed to the application period |
| BasdStage.Prepare | code/python/downloaded.py:168-179 | a loaded dataset keeps exactly its time, lat and lon coordinates and, if present, the requested variable, whose cells are exactly those inside the period, each with its value unchanged |
| BasdStage.ResetEncoding | code/python/downloaded.py:67-69 | without the flag the encoding is unchanged; with it, the chunk tuple is replaced by `reset_chunk_sizes` on the data's dimensions and every other setting is kept |
| BasdStage.ResetOnLoadedData | code/python/downloaded.py:67-69 | the reset never fails on loaded data, because every dataset of the model is a time/lat/lon grid whose dimensions include time, lat and lon |
| BasdStage.ReadSettings | code/python/stitched.py:51-57 | the settings are read iff the parameters and the intended encoding can be read; the reset flag holds exactly when a chunk tuple is present |
| BasdStage.RsdsRule | code/python/downloaded.py:114-118 | for rsds exactly `upper_bound`, `upper_threshold` and `trend_preservation` become None and nothing else changes; other variables are untouched |
| BasdStage.MonthRule | code/python/downloaded.py:84-87 | both monthly names are kept when monthly output is wanted and cleared otherwise; every other name is unchanged |
| BasdStage.WriteOutputs | code/python/downloaded.py:89-95 | one library call adds the daily file and, when named, the monthly means beside it, and changes no other file or directory |
| BasdStage.EnsureDirs | code/python/downloaded.py:227-242 | every directory exists afterwards, none disappears and no file changes |
| BasdStage.EnsureDirsPresent | code/python/downloaded.py:231-242 | when every directory already exists, `create_directories` changes nothing |
| BasdStage.EnsureDirsIdempotent | code/python/downloaded.py:227-242 | running `create_directories` twice is the same as running it once |
| BasdStage.Apply | code/python/downloaded.py:137-146 | a removal only takes files and directories away and leaves the remaining files unchanged |
| BasdStage.Attempt | code/python/downloaded.py:141-146 | a `try` block of removals only takes files away, whatever fails part-way |
| BasdStage.AttemptTree | code/python/downloaded.py:137-140 | `rmtree` in its `try` block keeps exactly the files outside the directory, or everything when the directory is absent |
| BasdStage.DailyRemovalAsWrittenKeepsDownscaled | code/python/downloaded.py:141-146 | as written, the second removal of the same file raises, so the bias-adjusted daily file is removed and the downscaled one always stays |
| BasdStage.DailyRemovalRemovesBoth | code/python/stitched.py:142-147 | the corrected clean-up removes both daily files and nothing else |
| BasdStage.DailyRemovalAsWritten | code/python/downloaded.py:141-146 | the removals as written: the bias-adjusted daily file twice; its effect is stated by `DailyRemovalAsWrittenKeepsDownscaled` |
| BasdStage.DailyRemoval | code/python/stitched.py:142-147 | the intended removals: the bias-adjusted, then the downscaled daily file; its effect is stated by `DailyRemovalRemovesBoth` |
| BasdStage.DownscaleRequests | code/python/downloaded.py:107-130 | downscaling is requested iff its data loads and the chunk reset succeeds, into the `basd` directory under the downscaled names with the rsds rule applied; otherwise nothing changes |
| BasdStage.AdjustmentNeedsReset | code/python/downloaded.py:67-69 | when the first chunk reset fails, nothing is requested or written |
| BasdStage.AdjustmentRequest | code/python/downloaded.py:76-95 | bias adjustment is requested first, into the `ba` directory with the table's parameters and the reset encoding; a run that stops afterwards made only that request |
| BasdStage.DownscalingRequest | code/python/downloaded.py:120-130 | a completed run makes exactly two requests, the second into the `basd` directory with the rsds rule applied and the same attributes |
| BasdStage.ChunksFollowSimulationGrid | code/python/downloaded.py:110-112 | the second reset changes nothing, so the downscaled files get chunk sizes measured on the simulation grid, not on the observations' grid |
| BasdStage.DownscaledOutputKept | code/python/downloaded.py:136-146 | a completed run that keeps daily output leaves the downscaled daily file in place |
| BasdStage.WriteOutputsTo | code/python/downloaded.py:89-95 | the in-place library write leaves the store as `WriteOutputs` specifies |
| BasdStage.AttemptOn | code/python/downloaded.py:141-146 | running the removals one by one until one raises leaves the store as `Attempt` specifies |
| BasdStage.DownscaleOn | code/python/downloaded.py:107-146 | the in-place downscaling step reports and leaves the store as `Downscale` specifies |
| BasdStage.Downscale | code/python/downloaded.py:107-146 | step 10 as a function of the store; what it requests and keeps is stated by `DownscaleRequests`, `DownscalingRequest` and `DownscaledOutputKept` |
| BasdStage.AdjustAndDownscaleOn | code/python/downloaded.py:67-146 | the in-place steps 9 and 10 report and leave the store as `AdjustAndDownscale` specifies |
| BasdStage.AdjustAndDownscale | code/python/downloaded.py:67-146 | steps 9 and 10 as a function of the store; stated by `AdjustmentNeedsReset`, `AdjustmentRequest` and `DownscalingRequest` |
| Downloaded.NamesFor | code/python/downloaded.py:186-223 | the names exist iff the output location is present and the period has exactly one dash; everything lies under output/reference/ESM/scenario, the ba and basd names are equal, and the reference path is the task's |
| Downloaded.Directories | code/python/downloaded.py:227-242 | the three directories made, in order; `Downloaded.Run.CreateDirectories` ensures that they all exist afterwards |
| Downloaded.LoadBaData | code/python/downloaded.py:150-182 | loading succeeds iff the application, historical and observation patterns each match a file and both periods hold one dash and two years; the observations and the historical run are then the opened files prepared over the target period, the application run the opened files prepared over the application period |
| Downloaded.AsWrittenNeverAdjusts | code/python/downloaded.py:44-54 | as written, `get_encoding` gets two arguments and raises, so no task reaches bias adjustment, no file is written and no library call is made |
| Downloaded.BasdAsWritten | code/python/downloaded.py:40-57 | the driver as written, up to the two-argument `get_encoding` call; stated by `AsWrittenNeverAdjusts` |
| Downloaded.Basd | code/python/downloaded.py:40-146 | the corrected driver: names, directories, then `BasdFrom`; stated by `BasdAdjusts` and, for the store, `Run.BasdDownloaded` |
| Downloaded.BasdFrom | code/python/downloaded.py:50-146 | the corrected driver from step 4: settings, loading, then `AdjustAndDownscale` with the monthly rule; stated by `BasdAdjusts` |
| Downloaded.BasdAdjusts | code/python/downloaded.py:40-95 | with names, settings and data in place, the corrected driver requests bias adjustment of the daily file in `ba`, with a monthly file exactly when monthly output is wanted |
| Downloaded.Run.constructor | code/python/downloaded.py:23-32 | the module starts with nothing named |
| Downloaded.Run.SetNames | code/python/downloaded.py:186-223 | on success the globals hold `NamesFor`; on a bad period the temporary and ba paths are already assigned; without an output location nothing changes |
| Downloaded.Run.CreateDirectories | code/python/downloaded.py:227-242 | the store ends as `EnsureDirs` on the three directories the globals name |
| Downloaded.Run.BasdDownloaded | code/python/downloaded.py:40-146 | the corrected driver reports and leaves the store as `Basd` specifies, and the globals end as the task's names, with the monthly names cleared by the monthly rule |
| Downloaded.Run.Proceed | code/python/downloaded.py:50-146 | from step 4 on, the driver reports and leaves the store as `BasdFrom` specifies |
| Downloaded.Run.Finish | code/python/downloaded.py:76-146 | steps 9 and 10 report and leave the store as `AdjustAndDownscale` specifies, with the monthly rule applied to the globals |
| Downloaded.Run.DropMonthlyNames | code/python/downloaded.py:84-87 | the globals end as `MonthRule` of their old value, and nothing else changes |
| Stitched.NamesFor | code/python/stitched.py:192-229 | the names exist iff the output and reference locations are present and the period has exactly one dash; `STITCHES` stands where the member would; ba and basd names are equal; observations are read from reference/variable |
| Stitched.Layout | code/python/stitched.py:200-229 | the names `set_names` assigns once the period is split; `NamesFor` pins them, and `Agreement.StitchedFeedsMinMax` states that they are the ones the STITCHES builders read |
| Stitched.Directories | code/python/stitched.py:233-248 | the three directories made, in order; `Stitched.Run.CreateDirectories` ensures that they all exist afterwards |
| Stitched.LoadBaData | code/python/stitched.py:151-188 | loading succeeds iff the single `stitched_{ESM}_{Variable}_{Scenario}.nc` exists, an observation file matches and both periods are readable; application and reference data are that one series prepared over the two periods, and the observations are the opened observation files prepared over the target period |
| Stitched.BasdAdjusts | code/python/stitched.py:40-96 | with names, settings and data in place, the driver requests bias adjustment of the daily file in `ba`, with a monthly file exactly when monthly output is wanted |
| Stitched.Basd | code/python/stitched.py:40-147 | the driver: names, directories, then `BasdFrom`; stated by `BasdAdjusts` and, for the store, `Run.BasdStitches` |
| Stitched.BasdFrom | code/python/stitched.py:51-147 | the driver from step 4: settings, loading, then `AdjustAndDownscale` with the monthly rule; stated by `BasdAdjusts` |
| Stitched.Run.constructor | code/python/stitched.py:23-32 | the module starts with nothing named |
| Stitched.Run.SetNames | code/python/stitched.py:192-229 | on success the globals hold `NamesFor`; when a statement raises, the names assigned before it stay assigned and the later ones are unchanged |
| Stitched.Run.CreateDirectories | code/python/stitched.py:233-248 | the store ends as `EnsureDirs` on the three directories the globals name |
| Stitched.Run.BasdStitches | code/python/stitched.py:40-147 | the driver reports and leaves the store as `Basd` specifies, and the globals end as the task's names, with the monthly names cleared by the monthly rule |
| Stitched.Run.Proceed | code/python/stitched.py:51-147 | from step 4 on, the driver reports and leaves the store as `BasdFrom` specifies |
| Stitched.Run.Finish | code/python/stitched.py:77-147 | steps 9 and 10 report and leave the store as `AdjustAndDownscale` specifies, with the monthly rule applied to the globals |
| Stitched.Run.DropMonthlyNames | code/python/stitched.py:86-88 | the globals end as `MonthRule` of their old value, and nothing else changes |
| Catalogue.RenameAll | code/python/pangeo.py:336-338 | renaming keeps every row in place, each renamed column by column |
| Catalogue.NativeGridTable | code/python/create_tasrange_tasskew.py:191-215 | the table holds, without duplicates, exactly the renamed archive rows on the native grid (`gn`); the row a lookup reads is fixed by `NativeStoreIsFirstArchiveRow` |
| Catalogue.ExperimentTable | code/python/pangeo.py:317-341 | the table holds, without duplicates, exactly the renamed native-grid rows whose experiment is one of the ten listed; the row a lookup reads is fixed by `ExperimentStoreIsFirstArchiveRow` |
| Catalogue.StoreOf | code/python/pangeo.py:287-291 | the lookup succeeds iff some row has the model, variable, domain `day`, experiment and member asked for, and gives that row's store address |
| Catalogue.StoreOfFirstWhere | code/python/pangeo.py:287-291 | the lookup reads the first wanted row, and fails exactly when there is none |
| Catalogue.RenameFirstWhere | code/python/pangeo.py:336-338 | renaming does not change which position is the first to meet a condition on the renamed row |
| Catalogue.NativeStoreIsFirstArchiveRow | code/python/create_tasrange_tasskew.py:191-233 | the address read is that of the first archive row, in archive order, on the native grid with the requested daily data; there is one iff such a row exists |
| Catalogue.ExperimentStoreIsFirstArchiveRow | code/python/pangeo.py:287-341 | for a listed experiment, the bias-adjustment catalogue gives the same lookup result as the native-grid table, hence the first matching archive row |
| Catalogue.StoreOfErrors | code/python/pangeo.py:287-291 | a failed lookup always raises the same IndexError |
| Catalogue.StoreFromNativeGrid | code/python/create_tasrange_tasskew.py:219-233 | a chosen address belongs to a native-grid archive row |
| Catalogue.UnlistedExperimentFails | code/python/pangeo.py:325-339 | an experiment outside the ten listed never has a store |
| Catalogue.Fetch | code/python/pangeo.py:305-313 | opening a store succeeds iff it can be reached, and gives its contents |
| Pangeo.NamesFor | code/python/pangeo.py:212-250 | the names exist iff the output location is present and the period has exactly one dash; the download and temporary directories sit side by side in the scenario directory and differ only in their suffix; ba and basd names are equal |
| Pangeo.Urls | code/python/pangeo.py:277-300 | the addresses exist iff both the historical and the scenario lookups succeed; the reference uses 'historical', the application the task's scenario |
| Pangeo.UnlistedScenarioFails | code/python/pangeo.py:294-298 | a scenario outside the catalogue's experiment list stops the run before any download |
| Pangeo.Download | code/python/pangeo.py:196-208 | the download succeeds iff both stores can be reached; it writes the application file first, then the reference file, and a failure leaves what was written before it |
| Pangeo.LoadBaData | code/python/pangeo.py:165-192 | loading succeeds iff both downloaded files exist, an observation file matches and both periods are readable; the application, reference and observation data are the downloaded application file, the downloaded reference file and the opened observation files, each prepared over its period |
| Pangeo.DownloadedDataLoaded | code/python/pangeo.py:165-208 | after a complete download, the loaded data is the application store over the application period and the historical store over the target period |
| Pangeo.AsWrittenNeverAdjusts | code/python/pangeo.py:43-64 | as written, `get_encoding` gets two arguments and raises, so no task reaches the download, no file is written and no library call is made |
| Pangeo.UnreachableStoreExits | code/python/pangeo.py:72-76 | a store that cannot be reached ends the run before any library call, and no directory changes |
| Pangeo.BasdAdjusts | code/python/pangeo.py:43-109 | with names, addresses, settings and observations in place and both stores reachable, the corrected driver requests bias adjustment of the daily file in `ba`, with a monthly file exactly when monthly output is wanted, starting from the application store over the application period |
| Pangeo.Directories | code/python/pangeo.py:254-273 | the four directories `create_directories` makes, in order; used by `Run.CreateDirectories` |
| Pangeo.BasdAsWritten | code/python/pangeo.py:43-64 | the driver as written, up to the two-argument `get_encoding` call; stated by `AsWrittenNeverAdjusts` |
| Pangeo.Basd | code/python/pangeo.py:43-161 | the corrected driver: names, directories, then `BasdFrom`; stated by `BasdAdjusts` and, for the store, `Run.BasdPangeo` |
| Pangeo.BasdFrom | code/python/pangeo.py:55-161 | the corrected driver from the address lookup on: settings, then `Fetched`; stated, through `Fetched` and `Basd`, by `UnreachableStoreExits` and `BasdAdjusts` |
| Pangeo.Fetched | code/python/pangeo.py:72-161 | download, load, adjust and downscale; stated by `UnreachableStoreExits` and, through `Basd`, `BasdAdjusts` |
| Pangeo.Run.constructor | code/python/pangeo.py:27-35 | the module starts with nothing named |
| Pangeo.Run.SetNames | code/python/pangeo.py:212-250 | on success the globals hold `NamesFor`; on a bad period the download, temporary and ba paths are already assigned; without an output location nothing changes |
| Pangeo.Run.CreateDirectories | code/python/pangeo.py:254-273 | the store ends as `EnsureDirs` on the four directories the globals name |
| Pangeo.Run.DownloadData | code/python/pangeo.py:196-208 | the in-place download raises and leaves the store as `Download` specifies |
| Pangeo.Run.BasdPangeo | code/python/pangeo.py:43-161 | the corrected driver reports and leaves the store as `Basd` specifies, and the globals end as the task's names, with the monthly names cleared by the monthly rule |
| Pangeo.Run.Proceed | code/python/pangeo.py:55-161 | from the address lookup on, the driver reports and leaves the store as `BasdFrom` specifies |
| Pangeo.Run.Get | code/python/pangeo.py:72-79 | download then load report and leave the store as `Fetched` specifies |
| Pangeo.Run.Finish | code/python/pangeo.py:90-161 | steps 9 and 10 report and leave the store as `AdjustAndDownscale` specifies, with the monthly rule applied to the globals |
| Pangeo.Run.DropMonthlyNames | code/python/pangeo.py:99-101 | the globals end as `MonthRule` of their old value, and nothing else changes |
| Tasks.BitwiseInvert | code/python/pangeo.py:99 | `~` on a plain Python bool is a negative integer, never zero |
| Tasks.BitwiseInvertAlwaysTruthy | code/python/pangeo.py:99-101 | on a plain bool both outcomes of `~flag` are truthy, while the numpy-bool reading used by the model tells the two flags apart |
| Tasks.Inverted | code/python/pangeo.py:99 | `~flag` on the numpy bool a pandas row holds, the logical not; used by `BasdStage.MonthRule` and `BasdStage.Downscale` |
| Tasks.FirstIsStitched | code/python/create_tasmin_tasmax.py:470 | `run_details.iloc[0].stitched` succeeds iff the column exists and the list is non-empty, and is true unless the first cell is False |
| Tasks.UniqueOf | code/python/create_tasmin_tasmax.py:77-80 | the unique values of a column, sorted, holding exactly the values that occur in it |
| MinMax.FileName | code/python/create_tasmin_tasmax.py:162-166 | the builders' name template; `FileNameVariableInjective` and `FileNameFrequencyInjective` state that it tells variables and resolutions apart |
| MinMax.FileNameVariableInjective | code/python/create_tasmin_tasmax.py:162-166 | two names of one template are equal iff their variable tokens are |
| MinMax.FileNameFrequencyInjective | code/python/create_tasmin_tasmax.py:266-296 | two names of one template are equal iff their resolution tokens are |
| MinMax.Builder | code/python/create_tasmin_tasmax.py:155-360 | a builder succeeds iff the output location is present; its directory is output/reference/ESM/scenario/`ba` or `basd`; its five names differ only in the variable token and are pairwise distinct; the member is `STITCHES` or the ensemble member |
| MinMax.DailyMonthlyDiffer | code/python/create_tasmin_tasmax.py:259-306 | the daily and monthly builders of a stage share the directory, and every daily name differs from its monthly counterpart |
| MinMax.CreateGeneral | code/python/create_tasmin_tasmax.py:32-68 | the rebuild succeeds iff the tas, tasrange and tasskew files exist, hold their variables and the chunk reset succeeds; the tasmax file written is tasmin + tasrange of tas − tasskew·tasrange, and the tasmin file (when its path differs) is tas − tasskew·tasrange; exactly these two files are added or replaced and every other file is unchanged; the encoding is kept without the reset flag and has its chunk sizes reset against tas with it |
| MinMax.CreateGeneralSpan | code/python/create_tasmin_tasmax.py:43-46 | in every finite cell the written tasmax exceeds the written tasmin by exactly tasrange |
| MinMax.CreateGeneralRoundTrip | code/python/create_tasmin_tasmax.py:38-66 | given the range and skew the forward transform derived, the files written hold exactly the original tasmin and tasmax |
| MinMax.FailureIsolated | code/python/create_tasmin_tasmax.py:102-147 | a failing attempt does not stop the others: the attempts run as if it were not there |
| MinMax.TryAllTouchesOnlyOutputs | code/python/create_tasmin_tasmax.py:102-147 | the attempts remove nothing and change no file other than their own tasmin and tasmax outputs |
| MinMax.EncodingSettles | code/python/create_tasmin_tasmax.py:60-62 | once the chunk sizes hold no 'max', or no reset is asked for, no later attempt changes the shared encoding |
| MinMax.Jobs | code/python/create_tasmin_tasmax.py:101-147 | each combination makes exactly four attempts |
| MinMax.OutputOf | code/python/create_tasmin_tasmax.py:89-95 | the output location is that of a task of the combination, and the lookup raises iff there is none |
| MinMax.ComboStep | code/python/create_tasmin_tasmax.py:88-147 | a combination ends the script iff its lookup fails or its period does not split; these are outside the `try` blocks |
| MinMax.RunCombosKeepsFiles | code/python/create_tasmin_tasmax.py:82-152 | however far the loops get, no file or directory is removed |
| MinMax.RunCombosCompletes | code/python/create_tasmin_tasmax.py:82-152 | when every combination is in the task list and has a splittable period, the loops run to the end |
| MinMax.StitchedCombos | code/python/create_tasmin_tasmax.py:76-85 | the STITCHES loops visit exactly the combinations of unique ESM, scenario, reference dataset and application period, with no member |
| MinMax.CmipCombos | code/python/create_tasmin_tasmax.py:368-379 | the CMIP6 loops visit exactly the combinations of unique ESM, scenario, ensemble member, reference dataset and application period |
| MinMax.NoStitchedColumnStops | code/python/create_tasmin_tasmax.py:470 | a task list without a `stitched` column stops the script before any attempt, with the file system unchanged |
| MinMax.CreateGeneralOn | code/python/create_tasmin_tasmax.py:32-68 | the in-place rebuild leaves the store, and returns the encoding, as `CreateGeneral` specifies |
| MinMax.TryCreateOn | code/python/create_tasmin_tasmax.py:102-111 | one `try` block leaves the store and the encoding as `TryCreate` specifies |
| MinMax.TryCreate | code/python/create_tasmin_tasmax.py:102-111 | one `try` block as a function: a failed attempt leaves files and encoding as they were; stated by `FailureIsolated` |
| MinMax.TryFourOn | code/python/create_tasmin_tasmax.py:101-147 | the four `try` blocks leave the store and the encoding as `TryAll` specifies |
| MinMax.TryAll | code/python/create_tasmin_tasmax.py:101-147 | the four attempts in order, each from what the previous left; stated by `FailureIsolated`, `TryAllTouchesOnlyOutputs` and `EncodingSettles` |
| MinMax.ComboOn | code/python/create_tasmin_tasmax.py:88-147 | one pass of the loop body ends as `ComboStep` specifies |
| MinMax.RunCombosOn | code/python/create_tasmin_tasmax.py:71-152 | the nested loops end in the state, encoding and error that `RunCombos` gives |
| MinMax.RunCombos | code/python/create_tasmin_tasmax.py:71-152 | the loops as a function, stopping at the first exception; stated by `RunCombosKeepsFiles` and `RunCombosCompletes` |
| MinMax.ScriptOn | code/python/create_tasmin_tasmax.py:452-481 | the script's entry point ends as `Script` specifies: settings, then the STITCHES or CMIP6 loops by the first task's flag |
| MinMax.Script | code/python/create_tasmin_tasmax.py:452-481 | the entry point as a function; stated by `NoStitchedColumnStops` and `Agreement.GeneratedListStopsMinMax` |
| Utils.RowsFor | code/python/utils.py:18 | `df[df.variable == name]` keeps exactly the rows whose variable cell is the name, and drops none of them |
| Utils.CompleteColumns | code/python/utils.py:18 | the columns `dropna(axis=1)` keeps; `FirstRecord` and `GetEncoding` state that their records hold exactly these columns |
| Utils.FirstRecord | code/python/utils.py:18 | `.dropna(axis=1).to_dict(orient='records')[0]` succeeds iff there is a row; the record holds exactly the columns with no missing cell, with the first row's values |
| Utils.Lookup | code/python/utils.py:18 | the record for a variable exists iff the table has a `variable` column and a row for that name; the record carries the name |
| Utils.Trunc | code/python/utils.py:24 | `int(x)` on a float truncates toward zero, on both signs |
| Utils.ToInt | code/python/utils.py:24 | an integer cell is kept, a float cell is truncated toward zero, a text cell converts exactly when it is a signed or unsigned numeral with optional surrounding whitespace, a missing cell raises, and the result is always an integer |
| Utils.ParseIntText | code/python/utils.py:24 | text `int()` accepts holds only digits, signs and whitespace, and at least one digit |
| Utils.Strip | code/python/utils.py:24 | the stripped text has no leading or trailing whitespace and drops nothing else |
| Utils.ToIntRoundTrip | code/python/utils.py:27 | a cell holding `str(n)`, padded with whitespace on either side, converts back to `n` |
| Utils.IntField | code/python/utils.py:23-27 | converting a present key succeeds iff `int(x)` of its value does, and stores exactly that integer; the key set and every other entry are unchanged; an absent key leaves the dict unchanged |
| Utils.GetParameters | code/python/utils.py:18-27 | the parameters are the first matching record without `variable`, with every other entry unchanged and `n_iterations`/`halfwin_ubc`, when present, replaced by `int(x)` of the record's value; for an existing record, success is exactly the success of those two conversions |
| Utils.GetParametersSucceeds | code/python/utils.py:18-27 | a row for the variable whose integer fields are numbers is all `get_parameters` needs to succeed |
| Utils.GetAttributes | code/python/utils.py:55-63 | succeeds iff the variable, `global_monthly` and `global_daily` rows all exist, and returns their three records |
| Utils.GetAttributesWithFallback | code/python/utils.py:55-63 | the evidently intended fallback: succeeds iff the variable row exists, with empty global dicts when a global row is missing, and agrees with `get_attributes` wherever that succeeds |
| Utils.GetAttributesFallbackRaises | code/python/utils.py:56-60 | with the variable row present but no global rows, the code as written raises where the fallback gives empty dicts |
| Utils.ResetOne | code/python/utils.py:76-83 | a non-'max' component is kept; a 'max' one becomes its dimension's size, and fails only when that dimension is missing |
| Utils.ResetChunkSizes | code/python/utils.py:67-85 | each 'max' component becomes the size of its dimension, the others are kept in time, lat, lon order, and no component of the result is 'max' |
| Utils.ResetChunkSizesIdempotent | code/python/utils.py:67-85 | a reset result resets to itself against any dimensions |
| Utils.GetEncoding | code/python/utils.py:113-136 | succeeds iff there is a row, the chunk columns exist and no chunk cell is missing; the settings hold exactly the columns with no missing cell in any row, minus the three chunk columns, each with the first row's value; the reset flag is set, and `chunksizes` present, exactly when a chunk is 'max', the tuple being the first row's three chunk cells |
| Utils.GetEncodingIntended | code/python/utils.py:123-134 | the fallback the comment describes for a missing chunk cell: the chunk keys are dropped, with no tuple and no reset, and the settings are every complete column but the chunk columns, with the first row's values; with all three chunks given it keeps the code's behaviour and agrees with `get_encoding` (no tuple unless one of them is `max`) |
| Utils.GetEncodingMissingChunkRaises | code/python/utils.py:121-129 | a missing chunk cell makes `get_encoding` raise, where the intended reading falls back to default chunking |
| Utils.GetEncodingFixedChunksDropped | code/python/utils.py:131-134 | three given, non-'max' chunk sizes produce no `chunksizes` tuple and no reset |
| Manifest.RemoveNas | code/python/job-script-generation.py:30-31 | keeps at most the cells it is given (partner lemmas below) |
| Manifest.RemoveNasAppend | code/python/job-script-generation.py:30-31 | dropping missing cells distributes over concatenation, so kept cells stay in column order |
| Manifest.RemoveNasMembers | code/python/job-script-generation.py:30-31 | a value survives exactly when some cell of the column holds it |
| Manifest.RemoveNasComplete | code/python/job-script-generation.py:30-31 | a column with no missing cell is kept whole and in order |
| Manifest.SubstituteVariables | code/python/job-script-generation.py:51-52 | when tasmin or tasmax is requested the variable list becomes the sorted union of the others with tas, tasrange and tasskew; otherwise it is unchanged |
| Manifest.SubstitutionRemovesExtremes | code/python/job-script-generation.py:48-52 | after the substitution neither tasmin nor tasmax remains, tas, tasrange and tasskew are present, and the list is sorted without repeats |
| Manifest.Mesh | code/python/job-script-generation.py:55-61 | the enumeration has one row per combination: its length is the product of the seven column lengths |
| Manifest.MeshCovers | code/python/job-script-generation.py:55-65 | a combination is a row exactly when each of its seven fields comes from its column |
| Manifest.JoinRow | code/python/job-script-generation.py:67 | the matches for one left row are never more than the right-hand rows |
| Manifest.JoinRowCount | code/python/job-script-generation.py:67 | one left row is paired with a value as many times as the right-hand table holds that value under its key |
| Manifest.JoinCount | code/python/job-script-generation.py:67-71 | an inner merge repeats each left row once per matching right row, and drops unmatched left rows |
| Manifest.Join | code/python/job-script-generation.py:67-71 | the inner merge, each left row followed by its matches (the order pandas 2.2 and later give); its contents are stated by `JoinCount` and `JoinMember` |
| Manifest.JoinMember | code/python/job-script-generation.py:67-71 | a merged row exists exactly when its left part is a left row and its right part a right row under the same key |
| Manifest.Column | code/python/job-script-generation.py:35-46 | the column holds, position by position, the named field of each run-manager row |
| Manifest.BuildManifest | code/python/job-script-generation.py:35-74 | the list exists exactly when the daily and monthly columns each have a value; task i is merged row i of the three merges, with the first daily and monthly values and no `stitched` value |
| Manifest.Combos | code/python/job-script-generation.py:55-65 | the enumerated combinations; `MeshCovers` states that a combination is listed iff each field comes from its column |
| Manifest.Joins | code/python/job-script-generation.py:67-71 | the three inner merges; `ManifestRowsAreJoined` characterises the merged rows independently of the merge order |
| Manifest.ToTask | code/python/job-script-generation.py:72-74 | one merged row as a task; `BuildManifest` and `ManifestTaskOrigin` state where each field comes from |
| Manifest.ManifestRowsAreJoined | code/python/job-script-generation.py:55-71 | a combination with its three locations is a merged row exactly when it is enumerated, its ESM has a row with that input and that output location and its reference dataset a row with that input |
| Manifest.ManifestTaskOrigin | code/python/job-script-generation.py:55-74 | every task carries an enumerated combination, the input and output locations of a row for its ESM and the input location of a row for its reference dataset |
| Manifest.LastIndex | code/python/job-script-generation.py:77 | reports the last position holding the character, or -1 when there is none |
| Manifest.LastIndexAfter | code/python/job-script-generation.py:77 | no occurrence lies after the reported position |
| Manifest.SplitExt | code/python/job-script-generation.py:77 | the stem and extension concatenate back to the path, and the extension is empty or a single dotted suffix of the last path component |
| Manifest.SplitExtCsv | code/python/job-script-generation.py:77 | a plain `<name>.csv` splits into `<name>` and `.csv` |
| Manifest.OutputNamesFromStem | code/python/job-script-generation.py:77-82 | for `<name>.csv` the task list is `<name>_explicit_list.csv`, the job file `<name>.job`, and the two never coincide |
| Manifest.FileStem | code/python/job-script-generation.py:77 | `os.path.splitext(...)[0]`; `SplitExtCsv` states that it strips `.csv` from `<name>.csv` |
| Manifest.ManifestFileName | code/python/job-script-generation.py:82 | the task list name; `OutputNamesFromStem` gives it for `<name>.csv`, and `Agreement.ManifestNameIsTaskList` states when it has the file name the tasmin/tasmax script reads |
| Manifest.JobFileName | code/python/job-script-generation.py:78 | the job file name; `OutputNamesFromStem` gives it and states that it differs from the task list name |
| Manifest.SlurmSettingFound | code/python/job-script-generation.py:86-91 | a Slurm parameter is read exactly when some row names it, and the value read is that row's value; otherwise the lookup raises |
| Manifest.SlurmSetting | code/python/job-script-generation.py:86-91 | the lookup of one Slurm parameter; stated by `SlurmSettingFound` |
| Manifest.ArrayIds | code/python/job-script-generation.py:105 | `--array=1-N` hands out exactly the ids 1 to N, N of them |
| Manifest.ArrayDirectiveCount | code/python/job-script-generation.py:105 | the array line for a count n announces task ids 1 to n and spells n so that it parses back to n |
| Manifest.ArrayDirective | code/python/job-script-generation.py:105 | the `--array` line; `ArrayDirectiveCount` states that it announces ids 1 to the row count |
| Manifest.RunLine | code/python/job-script-generation.py:116 | the command each array task runs; `WriteJobFile` pins it in the job file, naming the task list |
| Manifest.WriteJobFile | code/python/job-script-generation.py:84-120 | the job file is written exactly when all six Slurm parameters are present; it then has its 25 lines with the shebang first, the job name from the run-manager stem, the array line for the row count and the command that runs the task list |
| Manifest.GenerateManifest | code/python/job-script-generation.py:35-74 | the imperative assembly, column by column and merge by merge, yields the task list of `BuildManifest`, whose tasks are the merged rows |
| Manifest.GenerateJobScript | code/python/job-script-generation.py:30-120 | the whole generator: a failed merge leaves no list and no job file; otherwise the task list of `BuildManifest` is saved even when a Slurm setting is missing, the job file is written exactly when all six settings are present, and its array line announces ids 1 to the length of the saved list |
| Manifest.SelectTask | code/python/main.py:24-28 | `iloc[task_id]` finds a row exactly for ids from −N to N−1, the non-negative ones counting from the first row |
| Manifest.RouteOf | code/python/main.py:33-49 | a task goes to the Pangeo variant exactly when its ESM input location is missing |
| Manifest.ArrayIndexOffByOne | code/python/main.py:28 | with Slurm's 1-based ids the last id N finds no row, every id in 1..N that finds one picks position id, and when the first row differs from the others no id ever picks it |
| Manifest.SelectTaskIntended | code/python/main.py:28 | array id `id` in 1..N selects row `id − 1`, and nothing outside 1..N except a negative-style index finds a row |
| Manifest.EveryRowRunOnce | code/python/main.py:28 | under the corrected pick every array id finds a row and every row is picked by exactly its own id |
| StitchGen.Arange | code/python/generate_stitched_data.py:43 | `np.arange(start, stop)` holds the consecutive integers from start up to stop − 1, and nothing when stop ≤ start |
| StitchGen.ArangeDownShape | code/python/generate_stitched_data.py:35 | a downward range steps by its step from start, every value above stop, and the next step would reach stop |
| StitchGen.EndYearVectorShape | code/python/generate_stitched_data.py:35 | the archive subset uses the 34 chunk end years 2100, 2091, …, 1803, each 9 below the previous and all after 1800 |
| StitchGen.EndYearVector | code/python/generate_stitched_data.py:35 | `np.arange(2100, 1800, -9)`; `EndYearVectorShape` gives its 34 values |
| StitchGen.Extremes | code/python/generate_stitched_data.py:42 | `min(years)` and `max(years)` are years of the input and bound all of them |
| StitchGen.Find | code/python/generate_stitched_data.py:52-53 | a position it reports holds the year looked for |
| StitchGen.FindFirst | code/python/generate_stitched_data.py:48-53 | the position found is the first holding the year, and nothing is found only when no position holds it |
| StitchGen.Below | code/python/generate_stitched_data.py:50 | a position it reports holds a known year below the one interpolated |
| StitchGen.Above | code/python/generate_stitched_data.py:51 | a position it reports holds a known year above the one interpolated |
| StitchGen.Nearest | code/python/generate_stitched_data.py:50-51 | the years found are the nearest known ones on each side, and a side yields nothing only when no known year lies there |
| StitchGen.NeighboursExist | code/python/generate_stitched_data.py:49-51 | a missing year between the first and last known years has known years on both sides, so `max`/`min` of the neighbours never raise |
| StitchGen.LerpBetween | code/python/generate_stitched_data.py:54-55 | between two known years the weight lies strictly between 0 and 1 and the value between the two known values |
| StitchGen.LerpOnLine | code/python/generate_stitched_data.py:54-55 | the weighted mean of two points on a straight line is that line's value |
| StitchGen.InterpBetween | code/python/generate_stitched_data.py:49-55 | a year the input lacks is interpolated from its nearest neighbours, with its value between theirs |
| StitchGen.InterpAt | code/python/generate_stitched_data.py:46-55 | one year's interpolated value; `InterpAtKnownYear` keeps known values, `InterpBetween` bounds the others by their neighbours, and `InterpExactOnLines` makes it exact on lines |
| StitchGen.InterpAtKnownYear | code/python/generate_stitched_data.py:47-48 | a known year keeps the value at its first position in the input |
| StitchGen.InterpExactOnLines | code/python/generate_stitched_data.py:41-57 | when the known values lie on a straight line every interpolated value lies on it too |
| StitchGen.Interp | code/python/generate_stitched_data.py:41-57 | raises for no years or a value column of another length; otherwise returns every year from the first to the last known year and, for each, its interpolated value |
| StitchGen.FillInterpolated | code/python/generate_stitched_data.py:46-55 | the loop leaves at each position the interpolated value of its year |
| StitchGen.InterpYear | code/python/generate_stitched_data.py:47-55 | one turn of the loop computes the interpolated value of its year |
| StitchGen.Format | code/python/generate_stitched_data.py:59-74 | one row per input row with its year, labelled tas with the given model, member and experiment; each value is the input value minus the 1995–2014 mean, and with no 1995–2014 year the mean is not a number and no value survives |
| StitchGen.ReferenceMean | code/python/generate_stitched_data.py:68 | the 1995–2014 mean; `Format` subtracts it and `AnomalyMeanZero` states that the anomalies then sum to zero over those years |
| StitchGen.AnomalyMeanZero | code/python/generate_stitched_data.py:68 | when the 1995–2014 period is covered the anomalies sum to zero over it |
| StitchGen.FixLast | code/python/generate_stitched_data.py:80-83 | an empty recipe raises; otherwise only the last row changes, and only its archive start, so that its archive span equals its target span |
| StitchGen.GetRecipe | code/python/generate_stitched_data.py:76-85 | the in-place overwrite of the copied start-year array gives the recipe `FixLast` describes |
| StitchGen.ModelData | code/python/generate_stitched_data.py:91-92 | an archive row is kept exactly when it is for the ESM and its experiment contains `ssp` |
| StitchGen.Interpolated | code/python/generate_stitched_data.py:95-96 | the interpolated frame has one row per year from the first to the last known year, in order |
| StitchGen.PrepareTarget | code/python/generate_stitched_data.py:87-99 | the model's archive rows, and the formatted interpolated target or the error `interp` raises |
| StitchGen.TargetYearsConsecutive | code/python/generate_stitched_data.py:95-99 | the target has one tas row per consecutive year and, when 1995–2014 is covered, anomalies that sum to zero over it |
| Agreement.LayoutFeedsMinMax | code/python/create_tasmin_tasmax.py:259-360 | outputs named as `set_names` names them, under output/reference/ESM/scenario/`ba` and `basd`, are exactly the directories and the per-variable names the tasmin/tasmax builders read |
| Agreement.JoinAllSnoc | code/python/downloaded.py:200-202 | joining one more path component after a run of joins is one further `os.path.join` |
| Agreement.DownloadedFeedsMinMax | code/python/downloaded.py:186-223 | whenever the downloaded-input driver names its outputs, the CMIP6 builders for the task's member read those files |
| Agreement.PangeoFeedsMinMax | code/python/pangeo.py:212-250 | whenever the Pangeo driver names its outputs, the CMIP6 builders for the task's member read those files |
| Agreement.StitchedFeedsMinMax | code/python/stitched.py:192-229 | whenever the STITCHES driver names its outputs, the STITCHES builders read those files |
| Agreement.GatedSeriesIsLoadable | code/python/downloaded.py:155-160 | after the forward transform's gated write of a daily CMIP6 series, the downloaded-input loader's pattern for that series matches a file |
| Agreement.StitchedSeriesIsLoadable | code/python/stitched.py:156-160 | after the forward transform's exact-name write of a stitched series, the STITCHES loader's file opens |
| Agreement.ManifestNameIsTaskList | code/python/create_tasmin_tasmax.py:460 | the generator's explicit list has the file name the tasmin/tasmax script reads exactly when the run manager is `run_manager.csv` (directories are not compared) |
| Agreement.GeneratedListStopsMinMax | code/python/create_tasmin_tasmax.py:460-470 | a list built by the generator has no `stitched` value, so the tasmin/tasmax script reading it raises before its first attempt and changes no file |

## Left out

- Reading and writing files is modelled by an abstract file system (`Files.Fs`): datasets are opaque values by path, plus the set of existing directories. CSV parsing is left out; each helper receives the table a file holds.
- The `basd` library (bias adjustment and downscaling themselves) is not part of this model: its two entry points are a function parameter, and the drivers' decisions are recorded as requests.
- The network (the Pangeo catalogue download via `intake`, opening zarr stores over HTTP) is left out: the catalogue is a value and the reachable stores are a map given as a parameter.
- Dask clusters, clients and chunked evaluation, and `get_chunk_sizes`, are left out; chunk settings are carried as plain values.
- Floating point: values are exact reals, and a non-finite value (NaN or an infinity) is `None`. Rounding is not modelled.
- The date stamp that `strftime` puts in output names is a parameter of the forward transform.
- The STITCHES package (`make_recipe`, `chunk_ts`, `get_chunk_info`, `subset_archive`, `gridded_stitching`, `install_package_data`) is not part of this model. Neither is the `__main__` block of `generate_stitched_data.py`.
- pandas date-based slicing is modelled by year only.
- MinMax.Script: the global attributes are read, as the script does, but attaching them to the datasets is not modelled.
- MinMax.Script: uses the intended reading of `get_encoding` and `get_attributes`, which agrees with the code wherever the code succeeds (see Findings).
- BasdStage.ReadSettings: uses the same intended readings for the three drivers.
- Downloaded.Basd: models the driver with the intended `get_encoding(path)` and `get_attributes(variable, path)` calls; the calls as written are modelled by `Downloaded.BasdAsWritten` (see Findings).
- Pangeo.Basd: models the driver with the same intended calls; the calls as written are modelled by `Pangeo.BasdAsWritten`.
- The `~flag` tests on a task's `daily` and `monthly` flags are read as logical negation, which is how `~` acts on the numpy booleans a pandas row holds. `Tasks.BitwiseInvert` records what `~` would do to a plain Python bool.
- `main.py` is modelled only in its row pick and its choice of driver (`Manifest.SelectTask`, `Manifest.RouteOf`). The Dask dashboard and its printed connection hints are left out.
- Printed progress, warning and error messages are not modelled. A swallowed exception is modelled only by its effect on the files and on what runs next.
- Manifest.Join: assumes the row order of pandas 2.2 and later for an inner merge: each left row followed by its matches. Earlier pandas releases group the merged rows by key, in order of first appearance. No pandas version is pinned, and the order decides which array id runs which task. The set of tasks and how often each occurs (`JoinCount`, `JoinMember`, `ManifestRowsAreJoined`) hold under either order.
- Agreement.ManifestNameIsTaskList: compares file names only. The generator writes its list into `../../intermediate` relative to its working directory (`code/python/job-script-generation.py:24,82`), and the tasmin/tasmax script reads `intermediate/<run directory>/run_manager_explicit_list.csv` (`code/python/create_tasmin_tasmax.py:457-460`). Working directories are not modelled, so the model does not state whether the two paths name one file.
- BasdStage.ResetOnLoadedData: every dataset of the model is a time/lat/lon grid (`Files.Dims` always measures those three), so the KeyError that `reset_chunk_sizes` raises for a dimension a dataset lacks is modelled only by `Utils.ResetOne` and `Utils.ResetChunkSizes`, never on loaded data.
- Utils.ToInt: text cells convert when they are an ASCII numeral with an optional sign and surrounding ASCII whitespace; the underscores between digits, the non-ASCII digits and the non-ASCII whitespace that `int()` also accepts are not modelled.
- The job file's lines are kept as text. Slurm's handling of them is not modelled, apart from the set of array ids that `--array=1-N` hands out.

## Findings

| source | as written | input that shows it | evidently intended | confidence | as-written member | corrected member |
|---|---|---|---|---|---|---|
| code/python/main.py:28 | Slurm array ids run from 1 to N (job-script-generation.py:105), but the row is picked with 0-based `iloc[task_id]` | a task list of one row: the only array id, 1, raises IndexError, and the row is never run | pick row `task_id - 1` | not executed | Manifest.ArrayIndexOffByOne | Manifest.EveryRowRunOnce |
| code/python/create_tasrange_tasskew.py:47-60 | `next` on its own is a no-op, so a failed input assertion falls through to `open_mfdataset` on an empty list | a STITCHES task whose `stitched_<esm>_tas_<scenario>.nc` is missing: the open raises and the stage stops for every remaining combination | `continue` to the next combination | not executed | RangeSkew.StitchedMissingInputAborts | RangeSkew.StitchedMissingInputSkipped |
| code/python/downloaded.py:141-146 | the daily bias-adjusted file is removed twice | `daily` false with both daily outputs present: the second removal raises, and the downscaled daily file stays | remove the bias-adjusted and then the downscaled daily file, as stitched.py:142-147 does | not executed | BasdStage.DailyRemovalAsWrittenKeepsDownscaled | BasdStage.DailyRemovalRemovesBoth |
| code/python/utils.py:123-129 | `dropna(axis=1)` already removed the empty chunk column, so deleting it again raises KeyError | an encoding table whose `time_chunk` cell is empty | drop whatever chunk keys remain and use default chunking | not executed | Utils.GetEncodingMissingChunkRaises | Utils.GetEncodingIntended |
| code/python/utils.py:56-60 | the fallback unpacks `{}` into two names, which raises ValueError | an attribute table with a row for the variable but no `global_monthly` row | two empty dictionaries | not executed | Utils.GetAttributesFallbackRaises | Utils.GetAttributesWithFallback |
| code/python/downloaded.py:54-57 | `get_encoding` takes one argument but receives two; `get_attributes` receives the whole task row as the variable | any task: the call raises TypeError before anything is adjusted | `get_encoding(INPUT_PATH)` and `get_attributes(run_object.Variable, INPUT_PATH)`, as stitched.py:54-57 has them | not executed | Downloaded.AsWrittenNeverAdjusts | Downloaded.BasdAdjusts |
| code/python/pangeo.py:61-64 | the same two calls as in downloaded.py | any task routed to Pangeo: the call raises TypeError before any download | the same corrected calls | not executed | Pangeo.AsWrittenNeverAdjusts | Pangeo.BasdAdjusts |
