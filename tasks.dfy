/** One bias-adjustment job as the explicit task list records it, and how the
    stage scripts read its flags. */
module Tasks {
  import opened Common

  /** A row of `<run manager>_explicit_list.csv`. The three location cells may
      be missing (NaN): a missing ESM_Input_Location means the data comes
      from Pangeo. `stitched` is the cell of the `stitched` column (None when
      it is NaN). */
  datatype Task = Task(
    esm: string, variable: string, scenario: string, ensemble: string,
    ref: string, target: string, application: string,
    esmInput: Option<string>, refInput: Option<string>, output: Option<string>,
    daily: bool, monthly: bool, stitched: Option<bool>)

  /** The task list read back from CSV; `hasStitched` says whether the file
      has a `stitched` column at all. */
  datatype TaskList = TaskList(rows: seq<Task>, hasStitched: bool)

  /** `~flag` on a value read from a boolean CSV column: a numpy bool, so `~`
      is the logical not. */
  function Inverted(flag: bool): bool {
    !flag
  }

  /** `~flag` on a plain Python bool: bitwise, giving -2 or -1. */
  function BitwiseInvert(flag: bool): (r: int)
    ensures r < 0
  {
    -(if flag then 1 else 0) - 1
  }

  /** With a plain Python bool the `if ~flag:` test would pass for both
      values, so a file the user asked to keep would be dropped anyway. */
  lemma BitwiseInvertAlwaysTruthy(flag: bool)
    ensures BitwiseInvert(flag) != 0
    ensures Inverted(flag) != Inverted(!flag)
  {
  }

  /** `if run_details.iloc[0].stitched:` — the column must exist and the list
      be non-empty; a NaN cell is truthy. */
  function FirstIsStitched(list: TaskList): (r: Result<bool>)
    ensures r.Ok? <==> list.hasStitched && list.rows != []
    ensures r.Ok? ==> (r.value <==> list.rows[0].stitched != Some(false))
  {
    if !list.hasStitched then Err("AttributeError: 'Series' object has no attribute 'stitched'")
    else if list.rows == [] then Err("IndexError: single positional indexer is out-of-bounds")
    else Ok(list.rows[0].stitched != Some(false))
  }

  /** `np.unique(run_details.<column>.values)` */
  function UniqueOf(rows: seq<Task>, column: Task -> string): (r: seq<string>)
    ensures Sorted(r)
    ensures forall x :: x in r <==> exists i :: 0 <= i < |rows| && column(rows[i]) == x
  {
    var col := seq(|rows|, i requires 0 <= i < |rows| => column(rows[i]));
    assert forall i :: 0 <= i < |rows| ==> col[i] == column(rows[i]);
    Unique(col)
  }
}
