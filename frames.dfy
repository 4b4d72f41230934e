/**
 * The slice of pandas that the prediction service relies on: cells, records
 * (one JSON object per row), the columns pandas derives from a list of
 * records, and a frame object that is reshaped in place.
 */
module Frames {

  /** A cell as the service sees it: `Missing` stands for NaN, None and NaT. */
  datatype Value = Missing | Num(x: real) | Text(s: string) | Stamp(t: int)

  /** The price column that both the service and the data preparation read. */
  const PriceColumn := "PRICE"

  /** A record: column name to cell. A key absent from the record reads as `Missing`. */
  type Row = map<string, Value>

  /** The cell of `row` in `column`, as pandas fills it in when a record lacks the key. */
  function Cell(row: Row, column: string): Value
  {
    if column in row then row[column] else Missing
  }

  /**
   * The columns of `pd.DataFrame(records)`: every key that occurs in some
   * record. An empty list of records has no columns at all.
   */
  function Columns(records: seq<Row>): (cols: set<string>)
    ensures forall c :: c in cols <==> exists i :: 0 <= i < |records| && c in records[i]
  {
    if records == [] then {}
    else
      var rest := Columns(records[1..]);
      assert forall c :: c in rest ==> exists i :: 0 <= i < |records| && c in records[i] by {
        forall c | c in rest ensures exists i :: 0 <= i < |records| && c in records[i] {
          var j :| 0 <= j < |records[1..]| && c in records[1..][j];
          assert c in records[j + 1];
        }
      }
      assert forall i, c :: 1 <= i < |records| && c in records[i] ==> c in rest by {
        forall i, c | 1 <= i < |records| && c in records[i] ensures c in rest {
          assert c in records[1..][i - 1];
        }
      }
      records[0].Keys + rest
  }

  /** The column `name` of the rows, one cell per row, in row order (`df[name]`). */
  function ColumnValues(rows: seq<Row>, name: string): (cells: seq<Value>)
    ensures |cells| == |rows|
    ensures forall i :: 0 <= i < |rows| ==> cells[i] == Cell(rows[i], name)
  {
    seq(|rows|, i requires 0 <= i < |rows| => Cell(rows[i], name))
  }

  /** The default `RangeIndex` of a fresh frame: labels 0, 1, ..., n - 1. */
  function RangeIndex(n: nat): (labels: seq<Value>)
    ensures |labels| == n
    ensures forall i :: 0 <= i < n ==> labels[i] == Num(i as real)
  {
    seq(n, i requires 0 <= i < n => Num(i as real))
  }

  /**
   * A pandas frame built from records. `index` holds the row labels and
   * `rows` the cells of the ordinary columns; `columns` names those columns.
   */
  class DataFrame {
    var columns: set<string>
    var index: seq<Value>
    var rows: seq<Row>

    /** One label per row. */
    ghost predicate Valid()
      reads this
    {
      |index| == |rows|
    }

    /** `len(df)`: the number of labels in the index. */
    function Length(): (n: nat)
      reads this
      requires Valid()
      ensures n == |rows|
    {
      |index|
    }

    /** `df[name]` as a sequence of cells. */
    function Column(name: string): (cells: seq<Value>)
      reads this
      ensures |cells| == |rows|
      ensures forall i :: 0 <= i < |rows| ==> cells[i] == Cell(rows[i], name)
    {
      ColumnValues(rows, name)
    }

    /** `pd.DataFrame(records)`: one row per record, in order, with a range index. */
    constructor FromRecords(records: seq<Row>)
      ensures Valid()
      ensures columns == Columns(records) && rows == records && index == RangeIndex(|records|)
    {
      columns := Columns(records);
      rows := records;
      index := RangeIndex(|records|);
    }

    /** `df[name] = values`: overwrite (or add) one column, row by row. */
    method AssignColumn(name: string, values: seq<Value>)
      requires Valid() && |values| == |rows|
      modifies this
      ensures Valid()
      ensures columns == old(columns) + {name} && index == old(index)
      ensures |rows| == |old(rows)|
      ensures forall i :: 0 <= i < |rows| ==> rows[i] == old(rows)[i][name := values[i]]
    {
      var old_rows := rows;
      rows := seq(|old_rows|, i requires 0 <= i < |old_rows| => old_rows[i][name := values[i]]);
      columns := columns + {name};
    }

    /**
     * `df.set_index(name, inplace=True)`: the column becomes the index and
     * leaves the ordinary columns. Rows keep their order (nothing is sorted)
     * and their number.
     */
    method SetIndex(name: string)
      requires Valid() && name in columns
      modifies this
      ensures Valid()
      ensures Length() == old(Length())
      ensures columns == old(columns) - {name}
      ensures index == ColumnValues(old(rows), name)
      ensures |rows| == |old(rows)|
      ensures forall i :: 0 <= i < |rows| ==> rows[i] == old(rows)[i] - {name}
    {
      var old_rows := rows;
      index := ColumnValues(old_rows, name);
      rows := seq(|old_rows|, i requires 0 <= i < |old_rows| => old_rows[i] - {name});
      columns := columns - {name};
    }
  }
}
