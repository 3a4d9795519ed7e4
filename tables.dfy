/**
 * The part of a pandas DataFrame the runner relies on: an ordered list of
 * column names, the numeric/non-numeric dtype of each column as the CSV
 * parser inferred it, and rows of cells, where a missing cell (NaN/None) is
 * None.
 */
module Tables {
  import opened Wrappers
  import opened Seqs

  /** A parsed cell value: a number or a piece of text. */
  datatype Value = Num(x: real) | Text(s: string)

  type Cell = Option<Value>

  datatype Table = Table(columns: seq<string>, numeric: seq<bool>, rows: seq<seq<Cell>>)

  /**
   * A rectangular table with one dtype per column and distinct column names
   * (read_csv renames repeated headers, so names are keys).
   */
  predicate WellFormed(t: Table) {
    && |t.numeric| == |t.columns|
    && Distinct(t.columns)
    && forall i :: 0 <= i < |t.rows| ==> |t.rows[i]| == |t.columns|
  }

  /** Every name in cols is a column of t. */
  predicate Covers(t: Table, cols: seq<string>) {
    forall c :: c in cols ==> c in t.columns
  }

  /** The cell of row i in the column named c. */
  function CellAt(t: Table, i: nat, c: string): Cell
    requires WellFormed(t) && i < |t.rows| && c in t.columns
  {
    t.rows[i][IndexOf(t.columns, c)]
  }

  /** `df[cols]`: the table restricted to the named columns, in the order of cols. */
  function Select(t: Table, cols: seq<string>): (r: Table)
    requires WellFormed(t) && Covers(t, cols) && Distinct(cols)
    ensures WellFormed(r)
    ensures r.columns == cols && |r.rows| == |t.rows|
    ensures forall k :: 0 <= k < |cols| ==> r.numeric[k] == t.numeric[IndexOf(t.columns, cols[k])]
    ensures forall i, k :: 0 <= i < |r.rows| && 0 <= k < |cols| ==> r.rows[i][k] == CellAt(t, i, cols[k])
  {
    Table(
      cols,
      seq(|cols|, k requires 0 <= k < |cols| => t.numeric[IndexOf(t.columns, cols[k])]),
      seq(|t.rows|, i requires 0 <= i < |t.rows| =>
        seq(|cols|, k requires 0 <= k < |cols| => CellAt(t, i, cols[k]))))
  }

  /** `df.isnull().any().any()`: some cell of the table is missing. */
  predicate HasNull(t: Table) {
    exists i, k :: 0 <= i < |t.rows| && 0 <= k < |t.rows[i]| && t.rows[i][k].None?
  }

  /**
   * A projection has a missing cell exactly when one of the retained columns
   * has a missing cell in the original table; nulls elsewhere do not matter.
   */
  lemma SelectHasNull(t: Table, cols: seq<string>)
    requires WellFormed(t) && Covers(t, cols) && Distinct(cols)
    ensures HasNull(Select(t, cols)) <==>
      exists i, c :: 0 <= i < |t.rows| && c in cols && CellAt(t, i, c).None?
  {
    var r := Select(t, cols);
    if HasNull(r) {
      var i, k :| 0 <= i < |r.rows| && 0 <= k < |r.rows[i]| && r.rows[i][k].None?;
      assert CellAt(t, i, cols[k]).None?;
    }
    if exists i, c :: 0 <= i < |t.rows| && c in cols && CellAt(t, i, c).None? {
      var i, c :| 0 <= i < |t.rows| && c in cols && CellAt(t, i, c).None?;
      var k := IndexOf(cols, c);
      assert r.rows[i][k].None?;
    }
  }

  /** The cells of a table without missing values, unwrapped. */
  function Strip(t: Table): (g: seq<seq<Value>>)
    requires WellFormed(t) && !HasNull(t)
    ensures |g| == |t.rows|
    ensures forall i :: 0 <= i < |g| ==> |g[i]| == |t.columns|
    ensures forall i, k :: 0 <= i < |g| && 0 <= k < |g[i]| ==> t.rows[i][k] == Some(g[i][k])
  {
    seq(|t.rows|, i requires 0 <= i < |t.rows| =>
      seq(|t.rows[i]|, k requires 0 <= k < |t.rows[i]| => t.rows[i][k].value))
  }

  /** Every row of g has exactly w cells. */
  predicate Rectangular(g: seq<seq<Value>>, w: nat) {
    forall i :: 0 <= i < |g| ==> |g[i]| == w
  }

  /** `df[col]` by position: the values of column k, top to bottom. */
  function ColumnOf(g: seq<seq<Value>>, k: nat): (c: seq<Value>)
    requires forall i :: 0 <= i < |g| ==> k < |g[i]|
    ensures |c| == |g|
    ensures forall i :: 0 <= i < |g| ==> c[i] == g[i][k]
  {
    seq(|g|, i requires 0 <= i < |g| => g[i][k])
  }
}
