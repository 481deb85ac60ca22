/**
 * Turning a query's row set into the rows handed to the table writer:
 * a header of column names, then one row of cells per scanned data row,
 * with absent (SQL NULL) values written as the literal NULL.
 */
module ResultTable {
  import opened Wrappers
  import opened Protocol

  const NullCell: string := "NULL"

  /** The text of one cell: the raw value, or NULL when the value is absent. */
  function Cell(v: Option<string>): (c: string)
    ensures v.None? ==> c == NullCell
    ensures v.Some? ==> c == v.value
  {
    match v
    case None => NullCell
    case Some(s) => s
  }

  /**
   * Scanning a row into one destination per column: the row's own scan
   * error, or an arity error when the row does not have exactly `width` values.
   */
  function Scan(row: Row, width: nat): (r: Result<seq<Option<string>>, Error>)
    ensures r.Success? <==> row.Scanned? && |row.values| == width
    ensures r.Success? ==> r.value == row.values
    ensures row.ScanFailed? ==> r == Failure(row.err)
    ensures row.Scanned? && |row.values| != width ==> r == Failure(ScanArity(|row.values|, width))
  {
    match row
    case ScanFailed(e) => Failure(e)
    case Scanned(vs) => if |vs| == width then Success(vs) else Failure(ScanArity(|vs|, width))
  }

  /** The cells of one row, one per value, in order. */
  function Cells(values: seq<Option<string>>): (r: seq<string>)
    ensures |r| == |values|
    ensures forall i :: 0 <= i < |values| ==> r[i] == Cell(values[i])
  {
    if values == [] then [] else Cells(values[..|values| - 1]) + [Cell(values[|values| - 1])]
  }

  /** Row `k` is the first row whose scan fails. */
  predicate FirstScanFailure(rows: seq<Row>, width: nat, k: int)
  {
    && 0 <= k < |rows|
    && Scan(rows[k], width).Failure?
    && forall j :: 0 <= j < k ==> Scan(rows[j], width).Success?
  }

  /**
   * The data rows of the table, consuming the rows in order: the first scan
   * failure aborts with that error and no table; otherwise one row of cells
   * per data row, one cell per column.
   */
  function Tabulate(rows: seq<Row>, width: nat): (r: Result<seq<seq<string>>, Error>)
    ensures r.Success? <==> forall i :: 0 <= i < |rows| ==> Scan(rows[i], width).Success?
    ensures r.Success? ==> |r.value| == |rows|
    ensures r.Success? ==> forall i :: 0 <= i < |rows| ==>
              |r.value[i]| == width && r.value[i] == Cells(rows[i].values)
    ensures r.Failure? ==> exists k :: FirstScanFailure(rows, width, k) && r.error == Scan(rows[k], width).error
    decreases |rows|
  {
    if rows == [] then Success([])
    else
      var prefix := rows[..|rows| - 1];
      var last := rows[|rows| - 1];
      match Tabulate(prefix, width)
      case Failure(e) =>
        assert forall j :: 0 <= j < |prefix| ==> prefix[j] == rows[j];
        Failure(e)
      case Success(body) =>
        match Scan(last, width)
        case Failure(e) =>
          assert FirstScanFailure(rows, width, |rows| - 1);
          Failure(e)
        case Success(values) => Success(body + [Cells(values)])
  }

  /** The whole table for a row set whose columns were fetched: header, then the data rows. */
  function Render(columns: seq<string>, rows: seq<Row>): (r: Result<Table, Error>)
    ensures r.Success? <==> forall i :: 0 <= i < |rows| ==> Scan(rows[i], |columns|).Success?
    ensures r.Success? ==> r.value.header == columns && |r.value.body| == |rows|
    ensures r.Success? ==> forall i :: 0 <= i < |rows| ==> r.value.body[i] == Cells(rows[i].values)
    ensures r.Failure? ==> exists k :: FirstScanFailure(rows, |columns|, k) && r.error == Scan(rows[k], |columns|).error
  {
    match Tabulate(rows, |columns|)
    case Failure(e) => Failure(e)
    case Success(body) => Success(Table(columns, body))
  }

  /** The inner loop of the query handler: append one cell per value. */
  method RenderCells(values: seq<Option<string>>) returns (cols: seq<string>)
    ensures cols == Cells(values)
  {
    cols := [];
    for i := 0 to |values|
      invariant cols == Cells(values[..i])
    {
      assert values[..i + 1][..i] == values[..i];
      cols := cols + [Cell(values[i])];
    }
    assert values[..|values|] == values;
  }

  /**
   * The outer loop of the query handler: set the header, then scan and
   * append each row in turn, returning on the first scan error.
   */
  method BuildTable(columns: seq<string>, rows: seq<Row>) returns (r: Result<Table, Error>)
    ensures r == Render(columns, rows)
  {
    var body: seq<seq<string>> := [];
    var i := 0;
    while i < |rows|
      invariant 0 <= i <= |rows|
      invariant Tabulate(rows[..i], |columns|) == Success(body)
    {
      assert rows[..i + 1][..i] == rows[..i];
      var scanned := Scan(rows[i], |columns|);
      if scanned.Failure? {
        assert Tabulate(rows[..i + 1], |columns|) == Failure(scanned.error);
        TabulateAbortsOnPrefix(rows, i + 1, |columns|);
        return Failure(scanned.error);
      }
      var cols := RenderCells(scanned.value);
      body := body + [cols];
      i := i + 1;
    }
    assert rows[..i] == rows;
    r := Success(Table(columns, body));
  }

  /** Once a prefix of the rows fails, the whole set fails with the same error. */
  lemma {:induction false} TabulateAbortsOnPrefix(rows: seq<Row>, n: nat, width: nat)
    requires n <= |rows|
    requires Tabulate(rows[..n], width).Failure?
    ensures Tabulate(rows, width) == Tabulate(rows[..n], width)
    decreases |rows|
  {
    if n < |rows| {
      var prefix := rows[..|rows| - 1];
      assert prefix[..n] == rows[..n];
      TabulateAbortsOnPrefix(prefix, n, width);
    } else {
      assert rows[..n] == rows;
    }
  }

  /** Each rendered data row has one cell per column; an absent value renders as NULL, any other as its text. */
  lemma RenderedCells(columns: seq<string>, rows: seq<Row>, i: nat, j: nat)
    requires Render(columns, rows).Success?
    requires i < |rows| && j < |columns|
    ensures var t := Render(columns, rows).value;
      && t.header == columns
      && |t.body| == |rows|
      && |t.body[i]| == |columns|
      && rows[i].Scanned?
      && t.body[i][j] == (if rows[i].values[j].None? then NullCell else rows[i].values[j].value)
  {
    assert Scan(rows[i], |columns|).Success?;
  }

  /** A scan failure on any row means no table, with the first failing row's error. */
  lemma RenderAborts(columns: seq<string>, rows: seq<Row>, k: nat)
    requires FirstScanFailure(rows, |columns|, k)
    ensures Render(columns, rows) == Failure(Scan(rows[k], |columns|).error)
  {
    var r := Tabulate(rows, |columns|);
    assert r.Failure?;
    var k' :| FirstScanFailure(rows, |columns|, k') && r.error == Scan(rows[k'], |columns|).error;
    assert k' == k;
  }

  /** The two-row example: columns [id, name], rows (1, "a") and (2, NULL). */
  lemma ExampleTable()
    ensures Render(["id", "name"], [Scanned([Some("1"), Some("a")]), Scanned([Some("2"), None])])
         == Success(Table(["id", "name"], [["1", "a"], ["2", "NULL"]]))
  {
    var rows := [Scanned([Some("1"), Some("a")]), Scanned([Some("2"), None])];
    assert Scan(rows[0], 2).Success? && Scan(rows[1], 2).Success?;
    var body := Tabulate(rows, 2).value;
    var first := Cells([Some("1"), Some("a")]);
    var second := Cells([Some("2"), None]);
    assert first[0] == "1" && first[1] == "a";
    assert second[0] == "2" && second[1] == "NULL";
    assert first == ["1", "a"] && second == ["2", "NULL"];
    assert body == [first, second];
  }
}
