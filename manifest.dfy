/** Expanding a run manager into the explicit task list and the Slurm job
    array, and the array task's pick of its row. */
module Manifest {
  import opened Common
  import opened Tasks

  /** A row of the user's run manager CSV. Every column is an independent
      list padded with missing cells. */
  datatype ManagerRow = ManagerRow(
    esm: Option<string>, esmInput: Option<string>, output: Option<string>,
    ref: Option<string>, refInput: Option<string>, variable: Option<string>,
    scenario: Option<string>, ensemble: Option<string>,
    target: Option<string>, application: Option<string>,
    daily: Option<bool>, monthly: Option<bool>)

  /** `x[~pd.isnull(x)]` */
  function RemoveNas<T>(col: seq<Option<T>>): (r: seq<T>)
    ensures |r| <= |col|
  {
    if col == [] then []
    else (if col[0].Some? then [col[0].value] else []) + RemoveNas(col[1..])
  }

  /** Removing missing cells distributes over concatenation: the kept cells
      stay in their original order. */
  lemma {:induction false} RemoveNasAppend<T>(a: seq<Option<T>>, b: seq<Option<T>>)
    ensures RemoveNas(a + b) == RemoveNas(a) + RemoveNas(b)
  {
    if a == [] {
      assert a + b == b;
    } else {
      assert (a + b)[0] == a[0];
      assert (a + b)[1..] == a[1..] + b;
      RemoveNasAppend(a[1..], b);
    }
  }

  /** A value is kept exactly when some cell holds it. */
  lemma {:induction false} RemoveNasMembers<T>(col: seq<Option<T>>, x: T)
    ensures x in RemoveNas(col) <==> Some(x) in col
  {
    if col != [] {
      RemoveNasMembers(col[1..], x);
      assert col == [col[0]] + col[1..];
    }
  }

  /** A column without missing cells is kept whole. */
  lemma {:induction false} RemoveNasComplete<T>(col: seq<Option<T>>)
    requires forall i :: 0 <= i < |col| ==> col[i].Some?
    ensures |RemoveNas(col)| == |col|
    ensures forall i :: 0 <= i < |col| ==> RemoveNas(col)[i] == col[i].value
  {
    if col != [] {
      RemoveNasComplete(col[1..]);
    }
  }

  // ---------------------------------------------------------------------------
  // Variables

  /** tasmin and tasmax are produced indirectly: when either is requested,
      both are replaced by tas, tasrange and tasskew (and the list sorted). */
  function SubstituteVariables(vs: seq<string>): (r: seq<string>)
    ensures "tasmax" in vs || "tasmin" in vs ==>
              Sorted(r) && forall x :: x in r <==> (x in vs && x != "tasmax" && x != "tasmin") || x in ["tas", "tasrange", "tasskew"]
    ensures "tasmax" !in vs && "tasmin" !in vs ==> r == vs
  {
    if "tasmax" in vs || "tasmin" in vs then
      var d := SetDiff1d(vs, ["tasmax", "tasmin"]);
      Union1d(d, ["tas", "tasrange", "tasskew"])
    else vs
  }

  lemma SubstitutedContents(vs: seq<string>, r: seq<string>)
    requires forall x :: x in r <==> (x in vs && x != "tasmax" && x != "tasmin") || x in ["tas", "tasrange", "tasskew"]
    ensures "tasmax" !in r && "tasmin" !in r && "tas" in r && "tasrange" in r && "tasskew" in r
  {
    var extra := ["tas", "tasrange", "tasskew"];
    assert extra[0] != "tasmax" && extra[1] != "tasmax" && extra[2] != "tasmax";
    assert extra[0] != "tasmin" && extra[1] != "tasmin" && extra[2] != "tasmin";
  }

  /** After substitution neither tasmin nor tasmax is left to run directly,
      and tas, tasrange and tasskew each appear once. */
  lemma SubstitutionRemovesExtremes(vs: seq<string>)
    requires "tasmax" in vs || "tasmin" in vs
    ensures var r := SubstituteVariables(vs);
            "tasmax" !in r && "tasmin" !in r && "tas" in r && "tasrange" in r && "tasskew" in r && NoDup(r)
  {
    var r := SubstituteVariables(vs);
    SubstitutedContents(vs, r);
    SortedNoDup(r);
  }

  // ---------------------------------------------------------------------------
  // The cross product

  /** One combination of the seven enumerated columns. */
  datatype Combo = Combo(esm: string, variable: string, scenario: string, ensemble: string,
                         ref: string, target: string, application: string)

  type Nested = (string, (string, (string, (string, (string, (string, string))))))

  function Unnest(p: Nested): Combo {
    Combo(p.1.1.1.1.1.0, p.1.1.1.1.1.1, p.1.1.1.1.0, p.1.1.1.0, p.1.1.0, p.1.0, p.0)
  }

  /** `np.array(np.meshgrid(esms, variables, ...)).T.reshape(-1, 7)`: the
      variable varies fastest, then the ESM, scenario, ensemble, reference,
      target period, and the application period slowest. */
  function Mesh(esms: seq<string>, variables: seq<string>, scenarios: seq<string>, ensembles: seq<string>,
                refs: seq<string>, targets: seq<string>, applications: seq<string>): (r: seq<Combo>)
    ensures |r| == |applications| * (|targets| * (|refs| * (|ensembles| * (|scenarios| * (|esms| * |variables|)))))
  {
    var p := Product(applications, Product(targets, Product(refs, Product(ensembles, Product(scenarios, Product(esms, variables))))));
    seq(|p|, k requires 0 <= k < |p| => Unnest(p[k]))
  }

  /** Every combination of one value from each column is a row, and no other
      row occurs. */
  lemma MeshCovers(esms: seq<string>, variables: seq<string>, scenarios: seq<string>, ensembles: seq<string>,
                   refs: seq<string>, targets: seq<string>, applications: seq<string>, c: Combo)
    ensures c in Mesh(esms, variables, scenarios, ensembles, refs, targets, applications) <==>
            c.esm in esms && c.variable in variables && c.scenario in scenarios && c.ensemble in ensembles &&
            c.ref in refs && c.target in targets && c.application in applications
  {
    var p6 := Product(esms, variables);
    var p5 := Product(scenarios, p6);
    var p4 := Product(ensembles, p5);
    var p3 := Product(refs, p4);
    var p2 := Product(targets, p3);
    var p1 := Product(applications, p2);
    var n: Nested := (c.application, (c.target, (c.ref, (c.ensemble, (c.scenario, (c.esm, c.variable))))));
    assert Unnest(n) == c;
    ProductCovers(esms, variables, c.esm, c.variable);
    ProductCovers(scenarios, p6, c.scenario, n.1.1.1.1.1);
    ProductCovers(ensembles, p5, c.ensemble, n.1.1.1.1);
    ProductCovers(refs, p4, c.ref, n.1.1.1);
    ProductCovers(targets, p3, c.target, n.1.1);
    ProductCovers(applications, p2, c.application, n.1);
    var m := Mesh(esms, variables, scenarios, ensembles, refs, targets, applications);
    if c in m {
      var k :| 0 <= k < |m| && m[k] == c;
      assert Unnest(p1[k]) == c;
      assert p1[k] == n;
    }
    if n in p1 {
      var k :| 0 <= k < |p1| && p1[k] == n;
      assert m[k] == c;
    }
  }

  // ---------------------------------------------------------------------------
  // Inner joins

  /** The right-hand rows matching one left row, in right-hand order. */
  function JoinRow<L, V>(l: L, k: string, right: seq<(Option<string>, V)>): (r: seq<(L, V)>)
    ensures |r| <= |right|
  {
    if right == [] then []
    else (if right[0].0 == Some(k) then [(l, right[0].1)] else []) + JoinRow(l, k, right[1..])
  }

  /** `left.merge(right, on=key, how='inner')`: each left row followed by its
      matches, in left order. */
  function Join<L, V>(left: seq<L>, key: L -> string, right: seq<(Option<string>, V)>): seq<(L, V)> {
    if left == [] then [] else JoinRow(left[0], key(left[0]), right) + Join(left[1..], key, right)
  }

  lemma {:induction false} JoinRowCount<L, V>(l: L, k: string, right: seq<(Option<string>, V)>, m: L, v: V)
    ensures multiset(JoinRow(l, k, right))[(m, v)] == if m == l then multiset(right)[(Some(k), v)] else 0
  {
    if right != [] {
      var head := if right[0].0 == Some(k) then [(l, right[0].1)] else [];
      JoinRowCount(l, k, right[1..], m, v);
      assert JoinRow(l, k, right) == head + JoinRow(l, k, right[1..]);
      assert multiset(JoinRow(l, k, right)) == multiset(head) + multiset(JoinRow(l, k, right[1..]));
      assert multiset(right) == multiset([right[0]]) + multiset(right[1..]) by {
        assert right == [right[0]] + right[1..];
      }
      assert multiset(head)[(m, v)] == if m == l then multiset([right[0]])[(Some(k), v)] else 0;
    }
  }

  /** A left row with no match is dropped; one with k matches for a value
      appears k times with it. */
  lemma {:induction false} JoinCount<L, V>(left: seq<L>, key: L -> string, right: seq<(Option<string>, V)>, m: L, v: V)
    ensures multiset(Join(left, key, right))[(m, v)] == multiset(left)[m] * multiset(right)[(Some(key(m)), v)]
  {
    if left != [] {
      var k := multiset(right)[(Some(key(m)), v)];
      var head := JoinRow(left[0], key(left[0]), right);
      var tail := Join(left[1..], key, right);
      var c0 := if m == left[0] then 1 else 0;
      var c1 := multiset(left[1..])[m];
      assert multiset(Join(left, key, right))[(m, v)] == multiset(head)[(m, v)] + multiset(tail)[(m, v)] by {
        assert Join(left, key, right) == head + tail;
        assert multiset(head + tail) == multiset(head) + multiset(tail);
      }
      assert multiset(head)[(m, v)] == c0 * k by {
        JoinRowCount(left[0], key(left[0]), right, m, v);
      }
      assert multiset(tail)[(m, v)] == c1 * k by {
        JoinCount(left[1..], key, right, m, v);
      }
      assert multiset(left)[m] == c0 + c1 by {
        assert left == [left[0]] + left[1..];
        assert multiset(left) == multiset([left[0]]) + multiset(left[1..]);
      }
      Distribute(c0, c1, k);
    }
  }

  lemma Distribute(a: int, b: int, k: int)
    ensures a * k + b * k == (a + b) * k
  {
  }

  /** A joined row exists exactly when its left part is a left row and its
      right part is a right row under the same key. */
  lemma JoinMember<L, V>(left: seq<L>, key: L -> string, right: seq<(Option<string>, V)>, m: L, v: V)
    ensures (m, v) in Join(left, key, right) <==> m in left && (Some(key(m)), v) in right
  {
    JoinCount(left, key, right, m, v);
    var a := multiset(left)[m];
    var b := multiset(right)[(Some(key(m)), v)];
    assert a * b > 0 <==> a > 0 && b > 0;
  }

  // ---------------------------------------------------------------------------
  // The manifest

  function Column<T>(rows: seq<ManagerRow>, f: ManagerRow -> Option<T>): (r: seq<Option<T>>)
    ensures |r| == |rows| && forall i :: 0 <= i < |rows| ==> r[i] == f(rows[i])
  {
    seq(|rows|, i requires 0 <= i < |rows| => f(rows[i]))
  }

  function Pairs<V>(rows: seq<ManagerRow>, f: ManagerRow -> Option<V>): (r: seq<(Option<string>, Option<V>)>)
    ensures |r| == |rows|
  {
    seq(|rows|, i requires 0 <= i < |rows| => (rows[i].esm, f(rows[i])))
  }

  function RefPairs(rows: seq<ManagerRow>): (r: seq<(Option<string>, Option<string>)>)
    ensures |r| == |rows|
  {
    seq(|rows|, i requires 0 <= i < |rows| => (rows[i].ref, rows[i].refInput))
  }

  type Joined = (((Combo, Option<string>), Option<string>), Option<string>)

  function ToTask(j: Joined, daily: bool, monthly: bool): Task {
    var c := j.0.0.0;
    Task(c.esm, c.variable, c.scenario, c.ensemble, c.ref, c.target, c.application,
         j.0.0.1, j.0.1, j.1, daily, monthly, None)
  }

  /** The enumerated combinations before the joins. */
  function Combos(rows: seq<ManagerRow>): seq<Combo> {
    Mesh(RemoveNas(Column(rows, (r: ManagerRow) => r.esm)),
         SubstituteVariables(RemoveNas(Column(rows, (r: ManagerRow) => r.variable))),
         RemoveNas(Column(rows, (r: ManagerRow) => r.scenario)),
         RemoveNas(Column(rows, (r: ManagerRow) => r.ensemble)),
         RemoveNas(Column(rows, (r: ManagerRow) => r.ref)),
         RemoveNas(Column(rows, (r: ManagerRow) => r.target)),
         RemoveNas(Column(rows, (r: ManagerRow) => r.application)))
  }

  /** The three inner joins: ESM input location, reference input location and
      output location. */
  function Joins(rows: seq<ManagerRow>): seq<Joined> {
    var j1 := Join(Combos(rows), (c: Combo) => c.esm, Pairs(rows, (r: ManagerRow) => r.esmInput));
    var j2 := Join(j1, (x: (Combo, Option<string>)) => x.0.ref, RefPairs(rows));
    Join(j2, (x: ((Combo, Option<string>), Option<string>)) => x.0.0.esm, Pairs(rows, (r: ManagerRow) => r.output))
  }

  /** The explicit task list: every joined row with the first non-missing
      daily and monthly flags. Without any flag value the indexing raises. */
  function BuildManifest(rows: seq<ManagerRow>): (r: Result<seq<Task>>)
    ensures r.Ok? <==> RemoveNas(Column(rows, (x: ManagerRow) => x.daily)) != [] && RemoveNas(Column(rows, (x: ManagerRow) => x.monthly)) != []
    ensures r.Ok? ==> |r.value| == |Joins(rows)|
    ensures r.Ok? ==> forall i :: 0 <= i < |r.value| ==>
              r.value[i].daily == RemoveNas(Column(rows, (x: ManagerRow) => x.daily))[0] &&
              r.value[i].monthly == RemoveNas(Column(rows, (x: ManagerRow) => x.monthly))[0] &&
              r.value[i].stitched.None?
    ensures r.Ok? ==> forall i :: 0 <= i < |r.value| ==>
              r.value[i] == ToTask(Joins(rows)[i], RemoveNas(Column(rows, (x: ManagerRow) => x.daily))[0],
                                   RemoveNas(Column(rows, (x: ManagerRow) => x.monthly))[0])
  {
    var daily := RemoveNas(Column(rows, (x: ManagerRow) => x.daily));
    var monthly := RemoveNas(Column(rows, (x: ManagerRow) => x.monthly));
    if daily == [] || monthly == [] then Err("IndexError: index 0 is out of bounds")
    else
      var js := Joins(rows);
      Ok(seq(|js|, i requires 0 <= i < |js| => ToTask(js[i], daily[0], monthly[0])))
  }

  /** A task is in the list only for a combination of requested values whose
      ESM has a run-manager row giving its input location and its output
      location, and whose reference dataset has a row giving its input. */
  lemma ManifestRowsAreJoined(rows: seq<ManagerRow>, c: Combo, esmIn: Option<string>, refIn: Option<string>, out: Option<string>)
    ensures (((c, esmIn), refIn), out) in Joins(rows) <==>
            c in Combos(rows) && (Some(c.esm), esmIn) in Pairs(rows, (r: ManagerRow) => r.esmInput) &&
            (Some(c.ref), refIn) in RefPairs(rows) && (Some(c.esm), out) in Pairs(rows, (r: ManagerRow) => r.output)
  {
    var cs := Combos(rows);
    var p1 := Pairs(rows, (r: ManagerRow) => r.esmInput);
    var p2 := RefPairs(rows);
    var p3 := Pairs(rows, (r: ManagerRow) => r.output);
    var k1 := (c: Combo) => c.esm;
    var k2 := (x: (Combo, Option<string>)) => x.0.ref;
    var k3 := (x: ((Combo, Option<string>), Option<string>)) => x.0.0.esm;
    var j1 := Join(cs, k1, p1);
    var j2 := Join(j1, k2, p2);
    assert Joins(rows) == Join(j2, k3, p3);
    JoinMember(cs, k1, p1, c, esmIn);
    JoinMember(j1, k2, p2, (c, esmIn), refIn);
    JoinMember(j2, k3, p3, ((c, esmIn), refIn), out);
  }

  /** Every task of the list carries one requested combination of values, the
      input location of its ESM's row, the input location of its reference
      dataset's row and the output location of its ESM's row. */
  lemma ManifestTaskOrigin(rows: seq<ManagerRow>, i: int)
    requires BuildManifest(rows).Ok? && 0 <= i < |BuildManifest(rows).value|
    ensures var t := BuildManifest(rows).value[i];
            && Combo(t.esm, t.variable, t.scenario, t.ensemble, t.ref, t.target, t.application) in Combos(rows)
            && (Some(t.esm), t.esmInput) in Pairs(rows, (r: ManagerRow) => r.esmInput)
            && (Some(t.ref), t.refInput) in RefPairs(rows)
            && (Some(t.esm), t.output) in Pairs(rows, (r: ManagerRow) => r.output)
  {
    var j := Joins(rows)[i];
    assert j in Joins(rows);
    ManifestRowsAreJoined(rows, j.0.0.0, j.0.0.1, j.0.1, j.1);
  }

  // ---------------------------------------------------------------------------
  // File names and the job array

  /** The position of the last `c` in `s`, or -1. */
  function LastIndex(s: string, c: char): (r: int)
    ensures -1 <= r < |s|
    ensures r >= 0 ==> s[r] == c && c !in s[r + 1..]
    ensures r == -1 ==> c !in s
  {
    if s == [] then -1
    else if s[|s| - 1] == c then |s| - 1
    else
      var r := LastIndex(s[..|s| - 1], c);
      assert s[..|s| - 1] + [s[|s| - 1]] == s;
      if r >= 0 then assert s[r + 1..] == s[..|s| - 1][r + 1..] + [s[|s| - 1]]; r else r
  }

  /** No occurrence of `c` lies after the position `LastIndex` reports. */
  lemma LastIndexAfter(s: string, c: char, k: int)
    requires LastIndex(s, c) < k < |s|
    ensures s[k] != c
  {
    var r := LastIndex(s, c);
    if r >= 0 {
      assert s[k] == s[r + 1..][k - r - 1];
    } else {
      assert s[k] in s;
    }
  }

  /** Some character of `p[lo..hi]` is not a dot. */
  predicate HasNonDot(p: string, lo: int, hi: int)
    requires 0 <= lo && hi <= |p|
  {
    exists i :: lo <= i < hi && p[i] != '.'
  }

  /** `os.path.splitext(p)` on POSIX: the extension starts at the last dot of
      the last path component, unless only dots precede it there. */
  function SplitExt(p: string): (r: (string, string))
    ensures r.0 + r.1 == p
    ensures r.1 == [] || (r.1[0] == '.' && '.' !in r.1[1..] && '/' !in r.1)
  {
    var sep := LastIndex(p, '/');
    var dot := LastIndex(p, '.');
    if dot > sep && HasNonDot(p, sep + 1, dot) then
      var ext := p[dot..];
      assert ext[1..] == p[dot + 1..];
      assert '/' !in ext by {
        forall k | 0 <= k < |ext| ensures ext[k] != '/' {
          LastIndexAfter(p, '/', dot + k);
        }
      }
      (p[..dot], ext)
    else (p, [])
  }

  /** `<name>.csv`, for a name without separators or dots, has stem `<name>`. */
  lemma SplitExtCsv(stem: string)
    requires stem != [] && '.' !in stem && '/' !in stem
    ensures SplitExt(stem + ".csv") == (stem, ".csv")
  {
    var p := stem + ".csv";
    assert forall i :: 0 <= i < |stem| ==> p[i] == stem[i];
    assert p[|stem|] == '.';
    var d := LastIndex(p, '.');
    assert d == |stem| by {
      if d < |stem| { LastIndexAfter(p, '.', |stem|); }
    }
    assert p[0] == stem[0] && stem[0] in stem;
    assert HasNonDot(p, 0, |stem|);
    assert p[..|stem|] == stem && p[|stem|..] == ".csv";
  }

  /** The run manager's file name without its extension. */
  function FileStem(runManagerFile: string): string {
    SplitExt(runManagerFile).0
  }

  /** `f'{file_name}_explicit_list.csv'` */
  function ManifestFileName(runManagerFile: string): string {
    FileStem(runManagerFile) + "_explicit_list.csv"
  }

  /** `f'{file_name}.job'` */
  function JobFileName(runManagerFile: string): string {
    FileStem(runManagerFile) + ".job"
  }

  /** For a run manager `<name>.csv`, the task list is
      `<name>_explicit_list.csv` and the job file `<name>.job`: the extension
      is stripped, and the two outputs never share a name. */
  lemma {:induction false} OutputNamesFromStem(stem: string)
    requires stem != [] && '.' !in stem && '/' !in stem
    ensures ManifestFileName(stem + ".csv") == stem + "_explicit_list.csv"
    ensures JobFileName(stem + ".csv") == stem + ".job"
    ensures ManifestFileName(stem + ".csv") != JobFileName(stem + ".csv")
  {
    SplitExtCsv(stem);
    assert ManifestFileName(stem + ".csv")[|stem|] == '_';
    assert JobFileName(stem + ".csv")[|stem|] == '.';
  }

  /** `slurm_params[slurm_params['parameter'] == name]['value'].values[0]` */
  function SlurmSetting(settings: seq<(string, string)>, name: string): Result<string> {
    if settings == [] then Err("IndexError: index 0 is out of bounds")
    else if settings[0].0 == name then Ok(settings[0].1)
    else SlurmSetting(settings[1..], name)
  }

  /** A setting is read exactly when some row of the table names it, and the
      value read is one that row holds for that name. */
  lemma {:induction false} SlurmSettingFound(settings: seq<(string, string)>, name: string)
    ensures SlurmSetting(settings, name).Ok? <==> exists i :: 0 <= i < |settings| && settings[i].0 == name
    ensures SlurmSetting(settings, name).Ok? ==> exists i :: 0 <= i < |settings| && settings[i] == (name, SlurmSetting(settings, name).value)
    decreases |settings|
  {
    if settings != [] && settings[0].0 != name {
      SlurmSettingFound(settings[1..], name);
      var r := SlurmSetting(settings[1..], name);
      if r.Ok? {
        var i :| 0 <= i < |settings[1..]| && settings[1..][i] == (name, r.value);
        assert settings[i + 1] == (name, r.value);
      } else {
        assert forall i :: 1 <= i < |settings| ==> settings[i] == settings[1..][i - 1];
      }
    } else if settings != [] {
      assert settings[0] == (name, SlurmSetting(settings, name).value);
    }
  }

  /** The `--array` line: task ids 1 to N, at most `maxConcurrent` at once. */
  function ArrayDirective(n: nat, maxConcurrent: string): string {
    "#SBATCH --array=1-" + NatToString(n) + "%" + maxConcurrent + "\n\n\n"
  }

  /** The command each array task runs. */
  function RunLine(runManagerFile: string): string {
    "python main.py $SLURM_ARRAY_TASK_ID " + ManifestFileName(runManagerFile) + " \n\n"
  }

  /** The ids Slurm hands out for `--array=1-N`: N of them, 1 to N. */
  function ArrayIds(n: nat): (r: set<int>)
    ensures forall id :: id in r <==> 1 <= id <= n
    ensures |r| == n
  {
    if n == 0 then {} else
      var prev := ArrayIds(n - 1);
      assert n !in prev;
      prev + {n}
  }

  /** The array line announces task ids 1 to n for the n it is given;
      `GenerateJobScript` gives it the length of the saved task list. */
  lemma ArrayDirectiveCount(n: nat, maxConcurrent: string)
    ensures var line := ArrayDirective(n, maxConcurrent);
            var digits := NatToString(n);
            line[..18] == "#SBATCH --array=1-" && line[18..18 + |digits|] == digits && ParseNat(digits) == n
  {
    ParseNatToString(n);
  }

  /** The Slurm settings the job file needs, in the order they are read. */
  const SlurmNames: seq<string> := ["account", "time", "partition", "max_concurrent", "email", "mail-type"]

  /** The fixed lines between the `#SBATCH` block and the run command:
      modules, the conda environment and the start of the timer. */
  const EnvironmentLines: seq<string> := [
    "# Load Modules\n", "module load gcc/11.2.0\n", "module load python/miniconda3.9\n",
    "source /share/apps/python/miniconda3.9/etc/profile.d/conda.sh\n\n",
    "# activate conda environment\n", "conda activate basd_env\n\n",
    "# Timing\n", "start=`date +%s.%N`\n\n"]

  /** The fixed lines after the run command, which report the run time. */
  const TimingLines: seq<string> := [
    "# End timing and print runtime\n", "end=`date +%s.$N`\n",
    "runtime=$( echo \"($end - $start) / 60\" | bc -l )\n", "echo \"Run completed in $runtime minutes\"\n"]

  /** The job file, written line by line: the Slurm header with its array
      directive, the environment set-up and the command each array task
      runs. A setting missing from the Slurm table raises before the file
      is opened. */
  method WriteJobFile(runManagerFile: string, settings: seq<(string, string)>, rowCount: nat)
    returns (lines: seq<string>, err: Option<string>)
    ensures err.None? <==> forall k :: 0 <= k < |SlurmNames| ==> SlurmSetting(settings, SlurmNames[k]).Ok?
    ensures err.Some? ==> lines == []
    ensures err.None? ==> |lines| == 25 && lines[0] == "#!/bin/bash\n\n\n"
    ensures err.None? ==> lines[4] == "#SBATCH --job-name=" + FileStem(runManagerFile) + "\n"
    ensures err.None? ==> SlurmSetting(settings, "max_concurrent").Ok? && lines[9] == ArrayDirective(rowCount, SlurmSetting(settings, "max_concurrent").value)
    ensures err.None? ==> lines[20] == RunLine(runManagerFile)
  {
    lines := [];
    var account := SlurmSetting(settings, SlurmNames[0]);
    var time := SlurmSetting(settings, SlurmNames[1]);
    var partition := SlurmSetting(settings, SlurmNames[2]);
    var maxConcurrent := SlurmSetting(settings, SlurmNames[3]);
    var email := SlurmSetting(settings, SlurmNames[4]);
    var mailType := SlurmSetting(settings, SlurmNames[5]);
    if account.Err? {
      return [], Some(account.error);
    }
    if time.Err? {
      return [], Some(time.error);
    }
    if partition.Err? {
      return [], Some(partition.error);
    }
    if maxConcurrent.Err? {
      return [], Some(maxConcurrent.error);
    }
    if email.Err? {
      return [], Some(email.error);
    }
    if mailType.Err? {
      return [], Some(mailType.error);
    }
    err := None;
    var name := FileStem(runManagerFile);
    lines := lines + ["#!/bin/bash\n\n\n", "# Slurm Settings\n"];
    lines := lines + ["#SBATCH --account=" + account.value + "\n", "#SBATCH --partition=" + partition.value + "\n",
                      "#SBATCH --job-name=" + name + "\n", "#SBATCH --time=" + time.value + "\n",
                      "#SBATCH --mail-type=" + mailType.value + "\n", "#SBATCH --mail-user=" + email.value + "\n",
                      "#SBATCH --output=\".out/%x_%j.out\"\n", ArrayDirective(rowCount, maxConcurrent.value)];
    lines := lines + EnvironmentLines;
    lines := lines + ["# Run script\n", "cd ../code/python/\n", RunLine(runManagerFile)];
    lines := lines + TimingLines;
  }

  /** The explicit task list as the script assembles it: the columns
      without missing cells, the variable substitution, the cross product,
      then `mesh_df` reassigned by each of the three merges, and the two flag
      columns set last. */
  method GenerateManifest(rows: seq<ManagerRow>) returns (r: Result<seq<Task>>)
    ensures r == BuildManifest(rows)
  {
    var esms := RemoveNas(Column(rows, (x: ManagerRow) => x.esm));
    var refDatasets := RemoveNas(Column(rows, (x: ManagerRow) => x.ref));
    var variables := RemoveNas(Column(rows, (x: ManagerRow) => x.variable));
    var scenarios := RemoveNas(Column(rows, (x: ManagerRow) => x.scenario));
    var ensembles := RemoveNas(Column(rows, (x: ManagerRow) => x.ensemble));
    var targetPeriods := RemoveNas(Column(rows, (x: ManagerRow) => x.target));
    var applicationPeriods := RemoveNas(Column(rows, (x: ManagerRow) => x.application));
    var daily := RemoveNas(Column(rows, (x: ManagerRow) => x.daily));
    var monthly := RemoveNas(Column(rows, (x: ManagerRow) => x.monthly));
    if "tasmax" in variables || "tasmin" in variables {
      variables := Union1d(SetDiff1d(variables, ["tasmax", "tasmin"]), ["tas", "tasrange", "tasskew"]);
    }
    var meshDf := Mesh(esms, variables, scenarios, ensembles, refDatasets, targetPeriods, applicationPeriods);
    var withEsmInput := Join(meshDf, (c: Combo) => c.esm, Pairs(rows, (x: ManagerRow) => x.esmInput));
    var withRefInput := Join(withEsmInput, (x: (Combo, Option<string>)) => x.0.ref, RefPairs(rows));
    var withOutput := Join(withRefInput, (x: ((Combo, Option<string>), Option<string>)) => x.0.0.esm, Pairs(rows, (x: ManagerRow) => x.output));
    if daily == [] || monthly == [] {
      return Err("IndexError: index 0 is out of bounds");
    }
    r := Ok(seq(|withOutput|, i requires 0 <= i < |withOutput| => ToTask(withOutput[i], daily[0], monthly[0])));
  }

  /** The whole job-script generator: the task list is built and saved,
      then the Slurm settings are read and the job file written, its array
      directive sized by the saved list. A missing Slurm setting raises only
      after the list has been saved. */
  method GenerateJobScript(rows: seq<ManagerRow>, runManagerFile: string, settings: seq<(string, string)>)
    returns (list: Option<seq<Task>>, lines: seq<string>, err: Option<string>)
    ensures BuildManifest(rows).Err? ==> list.None? && lines == [] && err == Some(BuildManifest(rows).error)
    ensures BuildManifest(rows).Ok? ==> list == Some(BuildManifest(rows).value)
    ensures err.None? <==> BuildManifest(rows).Ok? && forall k :: 0 <= k < |SlurmNames| ==> SlurmSetting(settings, SlurmNames[k]).Ok?
    ensures err.Some? ==> lines == []
    ensures err.None? ==> |lines| == 25 && lines[20] == RunLine(runManagerFile)
    ensures err.None? ==> SlurmSetting(settings, "max_concurrent").Ok?
                          && lines[9] == ArrayDirective(|BuildManifest(rows).value|, SlurmSetting(settings, "max_concurrent").value)
    ensures err.None? ==> var digits := NatToString(|BuildManifest(rows).value|);
                          18 + |digits| <= |lines[9]| && lines[9][..18] == "#SBATCH --array=1-"
                          && lines[9][18..18 + |digits|] == digits && ParseNat(digits) == |BuildManifest(rows).value|
  {
    var r := GenerateManifest(rows);
    if r.Err? {
      return None, [], Some(r.error);
    }
    list := Some(r.value);
    lines, err := WriteJobFile(runManagerFile, settings, |r.value|);
    if err.None? {
      ArrayDirectiveCount(|r.value|, SlurmSetting(settings, "max_concurrent").value);
    }
  }

  // ---------------------------------------------------------------------------
  // main.py

  /** `pd.read_csv(task_list).iloc[task_id]` */
  function SelectTask(rows: seq<Task>, taskId: int): (r: Result<Task>)
    ensures r.Ok? <==> -|rows| <= taskId < |rows|
    ensures 0 <= taskId < |rows| ==> r == Ok(rows[taskId])
  {
    Iloc(rows, taskId)
  }

  datatype Route = Pangeo | Downloaded

  /** A missing ESM input location sends the task to Pangeo. */
  function RouteOf(t: Task): (r: Route)
    ensures r == Pangeo <==> t.esmInput.None?
  {
    if t.esmInput.None? then Pangeo else Downloaded
  }

  /** With 1-based array ids and 0-based row positions, the last id falls off
      the end of the list and the first row is never the one picked. */
  lemma ArrayIndexOffByOne(rows: seq<Task>)
    requires rows != []
    ensures |rows| in ArrayIds(|rows|) && SelectTask(rows, |rows|).Err?
    ensures forall id :: id in ArrayIds(|rows|) && SelectTask(rows, id).Ok? ==> SelectTask(rows, id) == Ok(rows[id])
    ensures rows[0] !in rows[1..] ==> forall id :: id in ArrayIds(|rows|) ==> SelectTask(rows, id) != Ok(rows[0])
  {
    if rows[0] !in rows[1..] {
      forall id | id in ArrayIds(|rows|)
        ensures SelectTask(rows, id) != Ok(rows[0])
      {
        if id < |rows| {
          assert rows[id] == rows[1..][id - 1];
        }
      }
    }
  }

  /** Row `id - 1` for array id `id`: what the 1-based array evidently needs. */
  function SelectTaskIntended(rows: seq<Task>, taskId: int): (r: Result<Task>)
    ensures taskId in ArrayIds(|rows|) ==> r == Ok(rows[taskId - 1])
    ensures r.Ok? ==> taskId in ArrayIds(|rows|) || (-|rows| < taskId <= 0)
  {
    Iloc(rows, taskId - 1)
  }

  /** Under the intended pick every row is run by exactly one array id, and
      every array id finds a row. */
  lemma EveryRowRunOnce(rows: seq<Task>)
    ensures |ArrayIds(|rows|)| == |rows|
    ensures forall id :: id in ArrayIds(|rows|) ==> SelectTaskIntended(rows, id).Ok?
    ensures forall k :: 0 <= k < |rows| ==> k + 1 in ArrayIds(|rows|) && SelectTaskIntended(rows, k + 1) == Ok(rows[k])
  {
  }
}
