/**
 * An in-memory table in the shape pandas gives it after reading a CSV file:
 * an ordered list of distinct column names and, per name, a column of cells,
 * every column as long as the table has rows.
 */
module Frame {

  /** One cell of a table: text, a number, or a missing value (pandas NaN). */
  datatype Cell = Str(s: string) | Num(n: real) | Missing

  /**
   * Element-wise application of `f` to a column, the way a pandas Series
   * operation produces a new column of the same length.
   */
  function MapCells(f: Cell -> Cell, s: seq<Cell>): (r: seq<Cell>)
    ensures |r| == |s|
    ensures forall i :: 0 <= i < |s| ==> r[i] == f(s[i])
  {
    if s == [] then [] else [f(s[0])] + MapCells(f, s[1..])
  }

  /** Column names are distinct, name exactly the stored columns, and every column has `rows` cells. */
  ghost predicate WellFormed(columns: seq<string>, data: map<string, seq<Cell>>, rows: nat)
  {
    && (forall i, j :: 0 <= i < j < |columns| ==> columns[i] != columns[j])
    && (forall c :: c in data <==> c in columns)
    && (forall c :: c in data ==> |data[c]| == rows)
  }

  /** A table whose columns are overwritten in place by the cleaning steps. */
  class DataFrame {
    var columns: seq<string>
    var data: map<string, seq<Cell>>
    var rows: nat

    ghost predicate Valid()
      reads this
    {
      WellFormed(columns, data, rows)
    }

    /** The table as read from the raw file; reading the file itself is not modelled. */
    constructor (columns: seq<string>, data: map<string, seq<Cell>>, rows: nat)
      requires WellFormed(columns, data, rows)
      ensures Valid()
      ensures this.columns == columns && this.data == data && this.rows == rows
    {
      this.columns := columns;
      this.data := data;
      this.rows := rows;
    }
  }
}
