/** The file system the pipeline reads and writes: NetCDF datasets by path and
    the directories that exist. `glob`, `os.makedirs`, `os.remove`,
    `shutil.rmtree`, `xr.open_mfdataset` and `Dataset.to_netcdf` act on it. */
module Files {
  import opened Common
  import opened Transform

  /** An opened dataset: its coordinate names and its data variables. */
  datatype Dataset = Dataset(coords: set<string>, vars: map<string, Grid>)

  /** A snapshot of the file system. */
  datatype Fs = Fs(files: map<string, Dataset>, dirs: set<string>)

  /** The coordinates of an array built by arithmetic on loaded data. */
  const DimCoords: set<string> := {"time", "lat", "lon"}

  /** `array.to_dataset(name=...)` */
  function ToDataset(name: string, g: Grid): Dataset {
    Dataset(DimCoords, map[name := g])
  }

  // ---------------------------------------------------------------------------
  // glob

  /** `path` matches `head*tail`, where `*` stops at a path separator. */
  predicate Matches(path: string, head: string, tail: string) {
    |head| + |tail| <= |path| && path[..|head|] == head && path[|path| - |tail|..] == tail
    && '/' !in path[|head|..|path| - |tail|]
  }

  /** `sorted(glob(os.path.join(dir, prefix + '*' + suffix)))` */
  function Glob(fs: Fs, dir: string, prefix: string, suffix: string): (r: seq<string>)
    ensures Sorted(r)
    ensures forall p :: p in r <==> p in fs.files && Matches(p, PathJoin(dir, prefix), suffix)
  {
    SortedSet(set p | p in fs.files.Keys && Matches(p, PathJoin(dir, prefix), suffix))
  }

  /** `glob(os.path.join(dir, name))` for a name without wildcards. */
  function GlobExact(fs: Fs, path: string): (r: seq<string>)
    ensures r != [] <==> path in fs.files
    ensures forall p :: p in r ==> p == path
  {
    if path in fs.files then [path] else []
  }

  /** A relative name that fills the wildcard of `prefix*suffix` with text
      holding no separator is found by that pattern. */
  lemma JoinMatches(dir: string, prefix: string, mid: string, suffix: string)
    requires prefix != [] && prefix[0] != '/' && '/' !in mid
    ensures Matches(PathJoin(dir, prefix + mid + suffix), PathJoin(dir, prefix), suffix)
  {
    var name := prefix + mid + suffix;
    assert name[0] == prefix[0];
    var head := PathJoin(dir, prefix);
    var p := PathJoin(dir, name);
    assert p == head + mid + suffix;
    assert p[..|head|] == head;
    assert p[|p| - |suffix|..] == suffix;
    assert p[|head|..|p| - |suffix|] == mid;
  }

  /** An existing file named by `prefix`, a wildcard filling and `suffix` makes
      the pattern's glob non-empty: the existence checks see it. */
  lemma GlobSeesFile(fs: Fs, dir: string, prefix: string, mid: string, suffix: string)
    requires prefix != [] && prefix[0] != '/' && '/' !in mid
    requires PathJoin(dir, prefix + mid + suffix) in fs.files
    ensures Glob(fs, dir, prefix, suffix) != []
  {
    JoinMatches(dir, prefix, mid, suffix);
    assert PathJoin(dir, prefix + mid + suffix) in Glob(fs, dir, prefix, suffix);
  }

  // ---------------------------------------------------------------------------
  // Reading

  function MergeGrid(a: map<string, Grid>, b: map<string, Grid>, v: string): Grid {
    (if v in a then a[v] else map[]) + (if v in b then b[v] else map[])
  }

  /** Combining two files: their coordinates and variables are pooled, and
      each variable's values are pooled across the two. */
  function Merge(a: Dataset, b: Dataset): (r: Dataset)
    ensures r.coords == a.coords + b.coords
    ensures r.vars.Keys == a.vars.Keys + b.vars.Keys
  {
    Dataset(a.coords + b.coords, map v | v in a.vars.Keys + b.vars.Keys :: MergeGrid(a.vars, b.vars, v))
  }

  function Combine(fs: Fs, paths: seq<string>): Dataset
    requires paths != []
    requires forall p :: p in paths ==> p in fs.files
  {
    if |paths| == 1 then fs.files[paths[0]]
    else Merge(Combine(fs, paths[..|paths| - 1]), fs.files[paths[|paths| - 1]])
  }

  /** `xr.open_mfdataset(paths)`: an empty list raises, as does a missing file. */
  function OpenMf(fs: Fs, paths: seq<string>): (r: Result<Dataset>)
    ensures r.Ok? <==> paths != [] && forall p :: p in paths ==> p in fs.files
    ensures |paths| == 1 && r.Ok? ==> r.value == fs.files[paths[0]]
  {
    if paths == [] then Err("OSError: no files to open")
    else if exists p :: p in paths && p !in fs.files then Err("FileNotFoundError")
    else Ok(Combine(fs, paths))
  }

  /** `ds[name]` */
  function Variable(ds: Dataset, name: string): (r: Result<Grid>)
    ensures r.Ok? <==> name in ds.vars
    ensures r.Ok? ==> r.value == ds.vars[name]
  {
    if name in ds.vars then Ok(ds.vars[name]) else Err("KeyError: " + name)
  }

  /** `ds.sel(time=slice(start, end))` with year bounds: both years included. */
  function SelectYears(ds: Dataset, start: int, end: int): (r: Dataset)
    ensures r.coords == ds.coords && r.vars.Keys == ds.vars.Keys
    ensures forall v, c :: v in r.vars && c in r.vars[v] <==> v in ds.vars && c in ds.vars[v] && start <= c.year <= end
    ensures forall v, c :: v in r.vars && c in r.vars[v] ==> v in ds.vars && c in ds.vars[v] && r.vars[v][c] == ds.vars[v][c]
  {
    Dataset(ds.coords, map v | v in ds.vars :: map c | c in ds.vars[v] && start <= c.year <= end :: ds.vars[v][c])
  }

  /** Drops every coordinate other than time, lat and lon, then every data
      variable other than `variable`. */
  function KeepOnly(ds: Dataset, variable: string): (r: Dataset)
    ensures r.coords == ds.coords * DimCoords
    ensures r.vars.Keys == ds.vars.Keys * {variable}
    ensures variable in ds.vars ==> r.vars[variable] == ds.vars[variable]
  {
    Dataset(ds.coords * DimCoords, map v | v in ds.vars && v == variable :: ds.vars[v])
  }

  /** The coordinates covered by any variable of the dataset. */
  function Points(ds: Dataset): set<Coord> {
    set v, c | v in ds.vars && c in ds.vars[v] :: c
  }

  /** `ds.dims`: the number of distinct days, latitudes and longitudes. */
  function Dims(ds: Dataset): map<string, nat> {
    var pts := Points(ds);
    map["time" := |set c | c in pts :: (c.year, c.day)|,
        "lat" := |set c | c in pts :: c.lat|,
        "lon" := |set c | c in pts :: c.lon|]
  }

  // ---------------------------------------------------------------------------
  // Changing the file system

  /** The directories above `path`, each named by a prefix ending before a separator. */
  function Ancestors(path: string): set<string> {
    set i | 0 < i < |path| && path[i] == '/' :: path[..i]
  }

  /** `os.makedirs(path)`: creates the directory and any missing parents;
      raises FileExistsError when the directory is already there. */
  function MakeDirs(fs: Fs, path: string): (r: Result<Fs>)
    ensures r.Ok? <==> path !in fs.dirs
    ensures r.Ok? ==> r.value.files == fs.files && r.value.dirs == fs.dirs + {path} + Ancestors(path)
  {
    if path in fs.dirs then Err("FileExistsError") else Ok(Fs(fs.files, fs.dirs + {path} + Ancestors(path)))
  }

  /** `try: os.makedirs(path) except FileExistsError: pass` */
  function EnsureDir(fs: Fs, path: string): (r: Fs)
    ensures r.files == fs.files
    ensures path in r.dirs && fs.dirs <= r.dirs
  {
    match MakeDirs(fs, path)
    case Ok(f) => f
    case Err(_) => fs
  }

  /** Creating a directory that is tolerated when present is idempotent. */
  lemma {:induction false} EnsureDirIdempotent(fs: Fs, path: string)
    ensures EnsureDir(EnsureDir(fs, path), path) == EnsureDir(fs, path)
  {
    assert path in EnsureDir(fs, path).dirs;
  }

  /** `dataset.to_netcdf(path)`: creates or replaces the file. */
  function WriteFile(fs: Fs, path: string, ds: Dataset): (r: Fs)
    ensures r.files == fs.files[path := ds] && r.dirs == fs.dirs
  {
    Fs(fs.files[path := ds], fs.dirs)
  }

  /** `os.remove(path)`: raises when there is no such file. */
  function RemoveFile(fs: Fs, path: string): (r: Result<Fs>)
    ensures r.Ok? <==> path in fs.files
    ensures r.Ok? ==> r.value.files == fs.files - {path} && r.value.dirs == fs.dirs
  {
    if path in fs.files then Ok(Fs(fs.files - {path}, fs.dirs)) else Err("FileNotFoundError")
  }

  /** `path` lies inside directory `dir`. */
  predicate Under(path: string, dir: string) {
    StartsWith(path, dir + "/")
  }

  /** `shutil.rmtree(dir)`: removes the directory and everything below it;
      raises when there is no such directory. */
  function RemoveTree(fs: Fs, dir: string): (r: Result<Fs>)
    ensures r.Ok? <==> dir in fs.dirs
    ensures r.Ok? ==> forall p :: p in r.value.files <==> p in fs.files && !Under(p, dir)
    ensures r.Ok? ==> forall p :: p in r.value.files ==> r.value.files[p] == fs.files[p]
    ensures r.Ok? ==> forall d :: d in r.value.dirs <==> d in fs.dirs && d != dir && !Under(d, dir)
  {
    if dir !in fs.dirs then Err("FileNotFoundError")
    else Ok(Fs(map p | p in fs.files && !Under(p, dir) :: fs.files[p],
               set d | d in fs.dirs && d != dir && !Under(d, dir)))
  }

  /** The file system as the scripts see it, changed in place by each call. */
  class Store {
    var files: map<string, Dataset>
    var dirs: set<string>

    function State(): Fs
      reads this
    {
      Fs(files, dirs)
    }

    constructor (init: Fs)
      ensures State() == init
    {
      files := init.files;
      dirs := init.dirs;
    }

    method Write(path: string, ds: Dataset)
      modifies this
      ensures State() == WriteFile(old(State()), path, ds)
    {
      files := files[path := ds];
    }

    /** `os.makedirs(path)` inside `try ... except FileExistsError: pass` */
    method EnsureDirectory(path: string)
      modifies this
      ensures State() == EnsureDir(old(State()), path)
    {
      if path !in dirs {
        dirs := dirs + {path} + Ancestors(path);
      }
    }

    method Remove(path: string) returns (err: Option<string>)
      modifies this
      ensures var r := RemoveFile(old(State()), path);
              if r.Ok? then State() == r.value && err.None? else State() == old(State()) && err.Some?
    {
      var r := RemoveFile(State(), path);
      if r.Ok? {
        files, dirs := r.value.files, r.value.dirs;
        err := None;
      } else {
        err := Some(r.error);
      }
    }

    method RemoveDirectoryTree(dir: string) returns (err: Option<string>)
      modifies this
      ensures var r := RemoveTree(old(State()), dir);
              if r.Ok? then State() == r.value && err.None? else State() == old(State()) && err.Some?
    {
      var r := RemoveTree(State(), dir);
      if r.Ok? {
        files, dirs := r.value.files, r.value.dirs;
        err := None;
      } else {
        err := Some(r.error);
      }
    }
  }
}
