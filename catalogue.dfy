/** The Pangeo CMIP6 catalogue as the scripts use it: the archive's table of
    contents reduced to native-grid rows with renamed columns, and the
    selection of one store address from it. Fetching the table and opening a
    store are network operations; here the fetched table is a value. */
module Catalogue {
  import opened Common
  import opened Files

  /** A row of the archive's table of contents. */
  datatype ArchiveRow = ArchiveRow(
    sourceId: string, experimentId: string, memberId: string, variableId: string,
    zstore: string, tableId: string, gridLabel: string)

  /** A row after selecting and renaming the six columns the scripts use. */
  datatype Entry = Entry(model: string, experiment: string, ensemble: string, variable: string,
                         zstore: string, domain: string)

  function Rename(a: ArchiveRow): Entry {
    Entry(a.sourceId, a.experimentId, a.memberId, a.variableId, a.zstore, a.tableId)
  }

  function RenameAll(rows: seq<ArchiveRow>): (r: seq<Entry>)
    ensures |r| == |rows| && forall i :: 0 <= i < |rows| ==> r[i] == Rename(rows[i])
  {
    seq(|rows|, i requires 0 <= i < |rows| => Rename(rows[i]))
  }

  /** The experiments the bias-adjustment catalogue keeps. */
  const PangeoExperiments: seq<string> :=
    ["historical", "ssp370", "ssp585", "ssp126", "ssp245",
     "ssp119", "ssp460", "ssp434", "ssp534-over", "piControl"]

  predicate OnNativeGrid(a: ArchiveRow) {
    a.gridLabel == "gn"
  }

  predicate Listed(e: Entry) {
    e.experiment in PangeoExperiments
  }

  /** `fetch_pangeo_table()` of the tasrange/tasskew script: native-grid rows,
      renamed, duplicates dropped. */
  function NativeGridTable(archive: seq<ArchiveRow>): (r: seq<Entry>)
    ensures NoDup(r)
    ensures forall e :: e in r <==> exists i :: 0 <= i < |archive| && archive[i].gridLabel == "gn" && Rename(archive[i]) == e
  {
    var kept := Filter(archive, OnNativeGrid);
    var renamed := RenameAll(kept);
    var r := Dedup(renamed);
    forall e ensures e in r <==> exists i :: 0 <= i < |archive| && archive[i].gridLabel == "gn" && Rename(archive[i]) == e {
      if e in r {
        var k :| 0 <= k < |renamed| && renamed[k] == e;
        var i :| 0 <= i < |archive| && archive[i] == kept[k];
        assert archive[i].gridLabel == "gn" && Rename(archive[i]) == e;
      }
      if exists i :: 0 <= i < |archive| && archive[i].gridLabel == "gn" && Rename(archive[i]) == e {
        var i :| 0 <= i < |archive| && archive[i].gridLabel == "gn" && Rename(archive[i]) == e;
        var k :| 0 <= k < |kept| && kept[k] == archive[i];
        assert renamed[k] == e;
      }
    }
    r
  }

  /** `fetch_pangeo_table()` of the bias-adjustment script: as above, but
      keeping only the listed experiments. */
  function ExperimentTable(archive: seq<ArchiveRow>): (r: seq<Entry>)
    ensures NoDup(r)
    ensures forall e :: e in r <==> (exists i :: 0 <= i < |archive| && archive[i].gridLabel == "gn" && Rename(archive[i]) == e) && e.experiment in PangeoExperiments
  {
    var all := NativeGridTable(archive);
    var kept := Filter(all, Listed);
    var r := Dedup(kept);
    assert forall e :: e in r <==> e in kept;
    forall e ensures e in kept <==> e in all && e.experiment in PangeoExperiments {
      if e in all && e.experiment in PangeoExperiments {
        var k :| 0 <= k < |all| && all[k] == e;
      }
    }
    r
  }

  /** The catalogue rows for one variable, model, experiment and ensemble
      member at daily frequency. */
  predicate Wanted(e: Entry, variable: string, esm: string, experiment: string, ensemble: string) {
    e.model == esm && e.variable == variable && e.domain == "day" && e.experiment == experiment && e.ensemble == ensemble
  }

  /** `table[model == esm & variable == ... & domain == 'day' & ...].iloc[0].zstore`:
      the first wanted row's store address; IndexError when there is none. */
  function StoreOf(table: seq<Entry>, variable: string, esm: string, experiment: string, ensemble: string): (r: Result<string>)
    ensures r.Ok? <==> exists i :: 0 <= i < |table| && Wanted(table[i], variable, esm, experiment, ensemble)
    ensures r.Ok? ==> exists i :: 0 <= i < |table| && Wanted(table[i], variable, esm, experiment, ensemble) && table[i].zstore == r.value
                        && forall j :: 0 <= j < i ==> !Wanted(table[j], variable, esm, experiment, ensemble)
  {
    if table == [] then Err("IndexError: single positional indexer is out-of-bounds")
    else if Wanted(table[0], variable, esm, experiment, ensemble) then Ok(table[0].zstore)
    else
      var r := StoreOf(table[1..], variable, esm, experiment, ensemble);
      if r.Ok? then
        var i :| 0 <= i < |table[1..]| && Wanted(table[1..][i], variable, esm, experiment, ensemble) && table[1..][i].zstore == r.value
                 && forall j :: 0 <= j < i ==> !Wanted(table[1..][j], variable, esm, experiment, ensemble);
        assert forall j :: 1 <= j < i + 1 ==> table[j] == table[1..][j - 1];
        r
      else
        assert forall j :: 1 <= j < |table| ==> table[j] == table[1..][j - 1];
        r
  }

  /** An address chosen from the catalogue is that of a native-grid archive
      row holding daily data of exactly the requested variable, model,
      experiment and ensemble member. */
  lemma StoreFromNativeGrid(archive: seq<ArchiveRow>, variable: string, esm: string, experiment: string, ensemble: string)
    requires StoreOf(NativeGridTable(archive), variable, esm, experiment, ensemble).Ok?
    ensures exists a :: a in archive && a.gridLabel == "gn" && a.zstore == StoreOf(NativeGridTable(archive), variable, esm, experiment, ensemble).value
              && a.sourceId == esm && a.variableId == variable && a.tableId == "day" && a.experimentId == experiment && a.memberId == ensemble
  {
    var t := NativeGridTable(archive);
    var r := StoreOf(t, variable, esm, experiment, ensemble);
    var k :| 0 <= k < |t| && Wanted(t[k], variable, esm, experiment, ensemble) && t[k].zstore == r.value
             && forall j :: 0 <= j < k ==> !Wanted(t[j], variable, esm, experiment, ensemble);
    assert t[k] in t;
    var i :| 0 <= i < |archive| && archive[i].gridLabel == "gn" && Rename(archive[i]) == t[k];
    assert archive[i] in archive;
  }

  /** The lookup reads the first wanted row. */
  lemma StoreOfFirstWhere(t: seq<Entry>, w: Entry -> bool, variable: string, esm: string, experiment: string, ensemble: string)
    requires forall e :: w(e) == Wanted(e, variable, esm, experiment, ensemble)
    ensures StoreOf(t, variable, esm, experiment, ensemble).Ok? <==> FirstWhere(t, w).Some?
    ensures FirstWhere(t, w).Some? ==> StoreOf(t, variable, esm, experiment, ensemble).value == t[FirstWhere(t, w).value].zstore
  {
    var r := StoreOf(t, variable, esm, experiment, ensemble);
    if r.Ok? {
      var i :| 0 <= i < |t| && Wanted(t[i], variable, esm, experiment, ensemble) && t[i].zstore == r.value
               && forall j :: 0 <= j < i ==> !Wanted(t[j], variable, esm, experiment, ensemble);
      var k := FirstWhere(t, w).value;
      assert !(i < k) && !(k < i);
    }
  }

  /** Renaming the rows does not change which position is the first to
      satisfy a condition on the renamed row. */
  lemma RenameFirstWhere(s: seq<ArchiveRow>, p: Entry -> bool, q: ArchiveRow -> bool)
    requires forall a :: q(a) == p(Rename(a))
    ensures FirstWhere(RenameAll(s), p) == FirstWhere(s, q)
  {
    var t := RenameAll(s);
    match FirstWhere(s, q)
    case None =>
    case Some(k) =>
      var i := FirstWhere(t, p).value;
      assert !(i < k) && !(k < i);
  }

  /** Whether a native-grid archive row holds what a lookup asks for. */
  predicate Chosen(a: ArchiveRow, variable: string, esm: string, experiment: string, ensemble: string) {
    OnNativeGrid(a) && Wanted(Rename(a), variable, esm, experiment, ensemble)
  }

  /** The address the tasrange/tasskew script reads is that of the first
      archive row, in archive order, that lies on the native grid and holds
      the requested data: renaming and dropping duplicates pick no other. */
  lemma NativeStoreIsFirstArchiveRow(archive: seq<ArchiveRow>, variable: string, esm: string, experiment: string, ensemble: string)
    ensures var r := StoreOf(NativeGridTable(archive), variable, esm, experiment, ensemble);
            && (r.Ok? <==> exists i :: 0 <= i < |archive| && Chosen(archive[i], variable, esm, experiment, ensemble))
            && (r.Ok? ==> exists i :: 0 <= i < |archive| && Chosen(archive[i], variable, esm, experiment, ensemble)
                                      && archive[i].zstore == r.value
                                      && forall j :: 0 <= j < i ==> !Chosen(archive[j], variable, esm, experiment, ensemble))
  {
    var w := (e: Entry) => Wanted(e, variable, esm, experiment, ensemble);
    var wr := (a: ArchiveRow) => Wanted(Rename(a), variable, esm, experiment, ensemble);
    var c := (a: ArchiveRow) => Chosen(a, variable, esm, experiment, ensemble);
    var kept := Filter(archive, OnNativeGrid);
    var renamed := RenameAll(kept);
    var t := Dedup(renamed);
    assert NativeGridTable(archive) == t;
    StoreOfFirstWhere(t, w, variable, esm, experiment, ensemble);
    DedupFirstWhere(renamed, w);
    RenameFirstWhere(kept, w, wr);
    FilterFirstWhere(archive, OnNativeGrid, wr, c);
    match FirstWhere(archive, c)
    case None =>
    case Some(i) =>
      assert t[FirstWhere(t, w).value] == Rename(archive[i]);
  }

  /** The address the bias-adjustment script reads for a listed experiment
      is, likewise, that of the first matching native-grid archive row. */
  lemma ExperimentStoreIsFirstArchiveRow(archive: seq<ArchiveRow>, variable: string, esm: string, experiment: string, ensemble: string)
    requires experiment in PangeoExperiments
    ensures StoreOf(ExperimentTable(archive), variable, esm, experiment, ensemble)
            == StoreOf(NativeGridTable(archive), variable, esm, experiment, ensemble)
  {
    var w := (e: Entry) => Wanted(e, variable, esm, experiment, ensemble);
    var all := NativeGridTable(archive);
    var kept := Filter(all, Listed);
    var t := Dedup(kept);
    assert ExperimentTable(archive) == t;
    StoreOfFirstWhere(t, w, variable, esm, experiment, ensemble);
    StoreOfFirstWhere(all, w, variable, esm, experiment, ensemble);
    DedupFirstWhere(kept, w);
    FilterFirstWhere(all, Listed, w, w);
    StoreOfErrors(t, variable, esm, experiment, ensemble);
    StoreOfErrors(all, variable, esm, experiment, ensemble);
  }

  /** A failed lookup always raises the same IndexError. */
  lemma {:induction false} StoreOfErrors(t: seq<Entry>, variable: string, esm: string, experiment: string, ensemble: string)
    ensures StoreOf(t, variable, esm, experiment, ensemble).Err? ==>
              StoreOf(t, variable, esm, experiment, ensemble) == Err("IndexError: single positional indexer is out-of-bounds")
  {
    if t != [] && !Wanted(t[0], variable, esm, experiment, ensemble) {
      StoreOfErrors(t[1..], variable, esm, experiment, ensemble);
    }
  }

  /** The bias-adjustment catalogue never offers an experiment outside its
      list, so a request for any other scenario fails. */
  lemma UnlistedExperimentFails(archive: seq<ArchiveRow>, variable: string, esm: string, experiment: string, ensemble: string)
    requires experiment !in PangeoExperiments
    ensures StoreOf(ExperimentTable(archive), variable, esm, experiment, ensemble).Err?
  {
    var t := ExperimentTable(archive);
    forall i | 0 <= i < |t| ensures !Wanted(t[i], variable, esm, experiment, ensemble) {
      assert t[i] in t;
    }
  }

  /** `fetch_nc(url)`: opening a remote store, which fails when it cannot be
      reached. The stores reachable are a parameter. */
  function Fetch(remote: map<string, Dataset>, url: string): (r: Result<Dataset>)
    ensures r.Ok? <==> url in remote
    ensures r.Ok? ==> r.value == remote[url]
  {
    if url in remote then Ok(remote[url]) else Err("GroupNotFoundError: " + url)
  }
}
