/**
 * Loading the rate history (demos/rates_api/rates_data.py): every CSV data
 * row becomes one dictionary entry holding the row's date, a EUR rate of 1.0
 * by default, and one value per other named column.
 *
 * Opening the file and splitting it into rows are not modelled: the loader
 * receives the rows as `csv.DictReader` yields them, each a dictionary from
 * column name to cell text whose keys come in header order. Converting text
 * with `float()` is the caller-supplied predicate `isFloat` (does `float()`
 * accept this text?), and the value it produces is left symbolic.
 */
module RatesData {
  import opened Wrappers

  /** A value stored in a rate entry. */
  datatype Value =
    | Text(s: string)      // the date cell, copied as text
    | One                  // the default EUR rate 1.0
    | NaN                  // math.nan, for a cell reading "N/A"
    | Parsed(s: string)    // float(s)

  /** One CSV row: its column names in header order, and the cell of each. */
  datatype Row = Row(columns: seq<string>, cells: map<string, string>)

  /** A row as a Python dictionary has it: each column once, each with a cell. */
  ghost predicate ValidRow(row: Row)
  {
    && (forall i, j :: 0 <= i < j < |row.columns| ==> row.columns[i] != row.columns[j])
    && (forall c :: c in row.cells <==> c in row.columns)
  }

  /** A rate entry: the dictionary built for one row. */
  type Entry = map<string, Value>

  /** What the loader raises. */
  datatype LoadError =
    | KeyError(key: string)     // the row has no "Date" column
    | ValueError(text: string)  // float() refused this cell

  /** Columns copied into the entry: every one except "Date" and the unnamed one. */
  predicate IsRateColumn(col: string)
  {
    col != "Date" && |col| > 0
  }

  /** The entry value of a rate cell. */
  function CellValue(cell: string): Value
  {
    if cell == "N/A" then NaN else Parsed(cell)
  }

  /** A rate cell the loader accepts: "N/A", or text float() can convert. */
  predicate Convertible(cell: string, isFloat: string -> bool)
  {
    cell == "N/A" || isFloat(cell)
  }

  /** The rate columns of a row. */
  function RateColumns(row: Row): set<string>
  {
    set c | c in row.cells && IsRateColumn(c)
  }

  /** The entry a row starts from, before its columns are visited. */
  function InitialEntry(date: string): Entry
  {
    map["Date" := Text(date), "EUR" := One]
  }

  /**
   * The dictionary assignments of the inner loop, one per visited column in
   * order: `entry[col] = value` for each rate column among `cols`.
   */
  function Assign(entry: Entry, cols: seq<string>, cells: map<string, string>): Entry
    requires forall c :: c in cols ==> c in cells
  {
    if cols == [] then entry
    else
      var before := Assign(entry, cols[..|cols| - 1], cells);
      var col := cols[|cols| - 1];
      if IsRateColumn(col) then before[col := CellValue(cells[col])] else before
  }

  /** The first rate cell, in column order, that the loader cannot convert. */
  function FirstUnconvertible(cols: seq<string>, cells: map<string, string>, isFloat: string -> bool): Option<string>
    requires forall c :: c in cols ==> c in cells
  {
    if cols == [] then None
    else if IsRateColumn(cols[0]) && !Convertible(cells[cols[0]], isFloat) then Some(cells[cols[0]])
    else FirstUnconvertible(cols[1..], cells, isFloat)
  }

  /** The entry of a row whose cells all convert. */
  function EntryOf(row: Row): Entry
    requires ValidRow(row) && "Date" in row.cells
  {
    Assign(InitialEntry(row.cells["Date"]), row.columns, row.cells)
  }

  /** What processing one row yields: its entry, or the exception raised. */
  function RowResult(row: Row, isFloat: string -> bool): Result<Entry, LoadError>
    requires ValidRow(row)
  {
    if "Date" !in row.cells then Err(KeyError("Date"))
    else match FirstUnconvertible(row.columns, row.cells, isFloat)
      case Some(text) => Err(ValueError(text))
      case None => Ok(EntryOf(row))
  }

  /**
   * The body of the row loop of `load_rates_from_history`: start the entry
   * from the row's date and EUR 1.0, then visit the columns in order, storing
   * NaN for "N/A" and the parsed value otherwise. A missing "Date" column
   * raises KeyError, an unconvertible cell ValueError.
   */
  method BuildRateEntry(rateRow: Row, isFloat: string -> bool) returns (r: Result<Entry, LoadError>)
    requires ValidRow(rateRow)
    ensures r == RowResult(rateRow, isFloat)
  {
    if "Date" !in rateRow.cells {
      return Err(KeyError("Date"));
    }
    var cols := rateRow.columns;
    var date := rateRow.cells["Date"];
    var rateEntry := InitialEntry(date);
    for j := 0 to |cols|
      invariant rateEntry == Assign(InitialEntry(date), cols[..j], rateRow.cells)
      invariant FirstUnconvertible(cols, rateRow.cells, isFloat) == FirstUnconvertible(cols[j..], rateRow.cells, isFloat)
    {
      var rateCol := cols[j];
      AssignStep(InitialEntry(date), cols, rateRow.cells, j);
      assert cols[j..][1..] == cols[j + 1..];
      if rateCol != "Date" && |rateCol| > 0 {
        var cell := rateRow.cells[rateCol];
        if cell == "N/A" {
          rateEntry := rateEntry[rateCol := NaN];
        } else if isFloat(cell) {
          rateEntry := rateEntry[rateCol := Parsed(cell)];
        } else {
          return Err(ValueError(cell));
        }
      }
    }
    assert cols[..|cols|] == cols;
    r := Ok(rateEntry);
  }

  /**
   * `load_rates_from_history`: builds one entry per row, in file order. The
   * first row that raises aborts the whole load with that exception.
   */
  method LoadRatesFromHistory(rows: seq<Row>, isFloat: string -> bool) returns (r: Result<seq<Entry>, LoadError>)
    requires forall i :: 0 <= i < |rows| ==> ValidRow(rows[i])
    ensures r.Ok? <==> forall i :: 0 <= i < |rows| ==> RowResult(rows[i], isFloat).Ok?
    ensures r.Ok? ==> |r.value| == |rows| && forall i :: 0 <= i < |rows| ==> r.value[i] == EntryOf(rows[i])
    ensures r.Err? ==> exists i :: 0 <= i < |rows| && RowResult(rows[i], isFloat) == Err(r.error)
                                   && forall k :: 0 <= k < i ==> RowResult(rows[k], isFloat).Ok?
  {
    var rateHistory: seq<Entry> := [];
    for n := 0 to |rows|
      invariant |rateHistory| == n
      invariant forall k :: 0 <= k < n ==> RowResult(rows[k], isFloat).Ok? && rateHistory[k] == EntryOf(rows[k])
    {
      var rateEntry := BuildRateEntry(rows[n], isFloat);
      if rateEntry.Err? {
        return Err(rateEntry.error);
      }
      rateHistory := rateHistory + [rateEntry.value];
    }
    r := Ok(rateHistory);
  }

  /** One more visited column performs one more assignment. */
  lemma AssignStep(entry: Entry, cols: seq<string>, cells: map<string, string>, j: nat)
    requires j < |cols|
    requires forall c :: c in cols ==> c in cells
    ensures forall c :: c in cols[..j] ==> c in cells
    ensures forall c :: c in cols[..j + 1] ==> c in cells
    ensures Assign(entry, cols[..j + 1], cells)
         == if IsRateColumn(cols[j]) then Assign(entry, cols[..j], cells)[cols[j] := CellValue(cells[cols[j]])]
            else Assign(entry, cols[..j], cells)
  {
    assert cols[..j + 1][..j] == cols[..j];
  }

  /** How the assignments of `Assign` leave a dictionary: the keys it had plus
      the rate columns visited, each rate column holding its cell's value and
      every other key its old value. */
  lemma {:induction false} AssignShape(entry: Entry, cols: seq<string>, cells: map<string, string>)
    requires forall c :: c in cols ==> c in cells
    ensures Assign(entry, cols, cells).Keys == entry.Keys + (set c | c in cols && IsRateColumn(c))
    ensures forall c :: c in cols && IsRateColumn(c) ==> Assign(entry, cols, cells)[c] == CellValue(cells[c])
    ensures forall k :: k in entry && !(k in cols && IsRateColumn(k)) ==> Assign(entry, cols, cells)[k] == entry[k]
  {
    if cols != [] {
      var init := cols[..|cols| - 1];
      AssignShape(entry, init, cells);
      assert cols == init + [cols[|cols| - 1]];
    }
  }

  /** An entry's keys are exactly "Date", "EUR" and the row's rate columns:
      "Date" and the unnamed column add nothing else. */
  lemma EntryKeys(row: Row)
    requires ValidRow(row) && "Date" in row.cells
    ensures EntryOf(row).Keys == {"Date", "EUR"} + RateColumns(row)
  {
    AssignShape(InitialEntry(row.cells["Date"]), row.columns, row.cells);
  }

  /** An entry's "Date" is the row's Date cell, copied. */
  lemma EntryDate(row: Row)
    requires ValidRow(row) && "Date" in row.cells
    ensures "Date" in EntryOf(row)
    ensures EntryOf(row)["Date"] == Text(row.cells["Date"])
  {
    AssignShape(InitialEntry(row.cells["Date"]), row.columns, row.cells);
  }

  /** An entry's "EUR" is 1.0, unless the row has its own EUR column. */
  lemma EntryEur(row: Row)
    requires ValidRow(row) && "Date" in row.cells
    ensures "EUR" in EntryOf(row)
    ensures EntryOf(row)["EUR"] == if "EUR" in row.cells then CellValue(row.cells["EUR"]) else One
  {
    AssignShape(InitialEntry(row.cells["Date"]), row.columns, row.cells);
  }

  /** A rate column takes the "N/A" branch exactly when its cell reads
      "N/A", and holds the parsed value of its text otherwise. */
  lemma EntryRate(row: Row, col: string)
    requires ValidRow(row) && "Date" in row.cells
    requires col in row.cells && IsRateColumn(col)
    ensures col in EntryOf(row)
    ensures EntryOf(row)[col] == NaN <==> row.cells[col] == "N/A"
    ensures row.cells[col] != "N/A" ==> EntryOf(row)[col] == Parsed(row.cells[col])
  {
    AssignShape(InitialEntry(row.cells["Date"]), row.columns, row.cells);
  }

  /** The load fails with ValueError exactly when some rate cell is neither
      "N/A" nor convertible, and it names such a cell. */
  lemma {:induction false} UnconvertibleIff(cols: seq<string>, cells: map<string, string>, isFloat: string -> bool)
    requires forall c :: c in cols ==> c in cells
    ensures FirstUnconvertible(cols, cells, isFloat).None? <==>
            forall c :: c in cols && IsRateColumn(c) ==> Convertible(cells[c], isFloat)
    ensures FirstUnconvertible(cols, cells, isFloat).Some? ==>
            exists c :: c in cols && IsRateColumn(c) && cells[c] == FirstUnconvertible(cols, cells, isFloat).value
                        && !Convertible(cells[c], isFloat)
  {
    if cols != [] {
      UnconvertibleIff(cols[1..], cells, isFloat);
      assert forall c :: c in cols <==> c == cols[0] || c in cols[1..];
    }
  }

  /** A row raises KeyError exactly when it has no "Date" column. Otherwise
      it raises ValueError exactly when some rate cell is neither "N/A" nor
      convertible, and the error carries such a cell's text. */
  lemma RowErrorIff(row: Row, isFloat: string -> bool)
    requires ValidRow(row)
    ensures RowResult(row, isFloat) == Err(KeyError("Date")) <==> "Date" !in row.cells
    ensures (RowResult(row, isFloat).Err? && RowResult(row, isFloat).error.ValueError?) <==>
            "Date" in row.cells &&
            exists c :: c in row.columns && IsRateColumn(c) && !Convertible(row.cells[c], isFloat)
    ensures RowResult(row, isFloat).Err? && RowResult(row, isFloat).error.ValueError? ==>
            exists c :: c in row.columns && IsRateColumn(c) && !Convertible(row.cells[c], isFloat)
                        && row.cells[c] == RowResult(row, isFloat).error.text
  {
    UnconvertibleIff(row.columns, row.cells, isFloat);
  }
}
